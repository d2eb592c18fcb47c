# Onboarding wizard: a verified model

This project models the behaviour at the core of a browser onboarding wizard.
The wizard has five numbered steps: website, business, language and location,
keywords, and competitors. An info panel beside the steps can be opened,
closed and pinned, and a summary slide projects the collected data onto display
fields. The model covers four components:

- **Step 4, keywords** (`StepSlide4`). An ordered, duplicate-free selection of
  keywords with toggle and "add your own keyword". A submission effect hands
  `{ keywords }` to the page only when it differs from the last payload it
  delivered. Module `Keywords`, class `KeywordStep`.
- **Step 5, competitors** (`StepSlide5`). Two independent selections, business
  and search-engine competitors. Each has toggle, remove and an inline
  "More -> add custom" box. A submission effect builds
  `{ businessCompetitors, searchCompetitors, totalCompetitors }`, where
  `totalCompetitors` is business followed by search, and delivers it on change.
  With both lists empty it delivers the all-empty payload every time. Module
  `Competitors`, class `CompetitorStep`.
- **The page** (`page.js`). The step counter is confined to 1..5 by guarded
  next and back. Website input is normalised: lowercase, then strip `http://`,
  then `https://`, then `www.`. The page stores the payloads the steps deliver
  (with a fallback for a missing competitor payload) and applies the info
  panel's open and pinned rules. Module `Home`, class `Wizard`.
- **The summary slide** (`Step5Slide2`). A pure projection with `||` fallback
  chains, `Array.isArray` guards, `slice` limits of 9 and 6, and `clean`
  (regex `/-\d+$/`). Module `Summary`.

Shared pieces:
- `Selection`: the list operations behind every toggle set.
- `Text`: ASCII versions of `trim` and `toLowerCase`, plus `startsWith`, string
  `replace` and `\d` (which in JavaScript is exactly `[0-9]`).
- `Payloads`: the payload types.
- `Wrappers`: `Option`, which stands for `null`/`undefined`.

Each of the two submission effects (steps 4 and 5) is an explicit `SubmitEffect`
method, called after each change of the selection the effect depends on. The
page's listener-registration effect becomes `Home.Wizard.MouseDown`, the handler
it registers. The scroll and focus effects are left out. A pure function
(`KeywordEffect`, `CompetitorEffect`) states what the method delivers and
records. A `setX(prev => …)` update is a direct assignment. `JSON.stringify`
comparison is replaced by structural equality on the typed payload. This is
order-sensitive, like the serialised comparison for these string-array payloads.

Points where the code behaves differently from what one might expect of such a
wizard:
- Navigation stops at step 5. page.js never reaches a separate "5b" summary
  step and never renders `Step5Slide2`.
- Step 4 delivers nothing when its selection becomes empty. See Findings.
- Toggling a label twice gives back the original list only when the label was
  absent at first. A label that was present comes back at the end
  (`Selection.ToggleTwiceMovesToEnd`, `Selection.ToggleTwiceReordersExample`).
- The info panel's own close callback (`onClose`) closes the panel even when it
  is pinned. Pinning suppresses only the sidebar button and the outside click.

## Model

| member | source | states |
|---|---|---|
| `Selection.Without` | src/app/components/StepSlide5.js:37-42 | the filtered list keeps exactly the labels other than the removed one, and is no longer than before |
| `Selection.WithoutAbsent` | src/app/components/StepSlide5.js:37-42 | removing a label that is not selected leaves the list unchanged |
| `Selection.WithoutAt` | src/app/components/StepSlide5.js:37-42 | removing the label at position k of a duplicate-free list gives the list with only that position cut out, order kept |
| `Selection.WithoutKeepsNoDuplicates` | src/app/components/StepSlide5.js:37-42 | removing keeps a selection free of duplicates |
| `Selection.WithoutAppended` | src/app/components/StepSlide5.js:26-30 | filtering out a just-appended absent label restores the list it was appended to |
| `Selection.Toggle` | src/app/components/StepSlide5.js:26-35 | after a toggle the label is selected iff it was not before, and every other label's membership is unchanged |
| `Selection.ToggleEffect` | src/app/components/StepSlide5.js:26-35 | an absent label is appended at the end; a present one is removed from its position with the others in order |
| `Selection.ToggleKeepsNoDuplicates` | src/app/components/StepSlide4.js:26-32 | toggling preserves the no-duplicates invariant |
| `Selection.ToggleTwiceRestores` | src/app/components/StepSlide5.js:26-30 | toggling an absent label twice restores the original list exactly |
| `Selection.ToggleTwiceMovesToEnd` | src/app/components/StepSlide4.js:26-32 | toggling a present label twice moves it to the end rather than restoring the order |
| `Selection.ToggleTwiceReordersExample` | src/app/components/StepSlide4.js:26-32 | ["Keyword A", "Keyword C"] toggled twice on "Keyword A" becomes ["Keyword C", "Keyword A"] |
| `Selection.AppendIfAbsent` | src/app/components/StepSlide5.js:48-50 | the value ends up selected, the old list is a prefix of the new one, length grows only when the value was new, no duplicates are introduced |
| `Text.Trim` | src/app/components/StepSlide4.js:36 | the trimmed text has no edge whitespace, is empty exactly when the input is all whitespace, and leaves already-trimmed text unchanged |
| `Text.TrimOfPadded` | src/app/components/StepSlide5.js:46 | any whitespace around a text with no edge whitespace is removed by trim, giving back that text |
| `Text.ToLower` | src/app/page.js:55 | lowercasing keeps the length and maps each character by ASCII lowercasing |
| `Text.ReplaceFirst` | src/app/page.js:57 | replacing a pattern that starts the string drops exactly that prefix; otherwise the length changes by the pattern's length or not at all |
| `Payloads.CompetitorsOf` | src/app/components/StepSlide5.js:69-76 | the payload carries the two selections and totalCompetitors is business followed by search; total is empty iff both are |
| `Keywords.KeywordEffect` | src/app/components/StepSlide4.js:52-63 | summary shown iff something is selected; `{keywords}` delivered iff non-empty and different from the last delivery, which it then becomes; otherwise the record is untouched |
| `Keywords.KeywordEffectSettles` | src/app/components/StepSlide4.js:55-59 | a second run on an unchanged selection delivers nothing and changes nothing |
| `Keywords.KeywordEffectNeverEmpty` | src/app/components/StepSlide4.js:61-63 | no empty keyword payload is ever delivered or recorded |
| `Keywords.ClearedKeywordsStayWithPage` | src/app/components/StepSlide4.js:52-63 | after "Keyword A" is delivered and toggled off, the page still holds ["Keyword A"] |
| `Keywords.KeywordEffectFixed` | src/app/components/StepSlide4.js:52-63 | the corrected effect records the current selection, empty or not, and delivers exactly that recorded payload iff it differs from the last delivery |
| `Keywords.FixedKeywordEffectSyncsPage` | src/app/components/StepSlide4.js:52-63 | with the corrected effect the page's keywords equal the selection after every run |
| `Keywords.KeywordStep.constructor` | src/app/components/StepSlide4.js:6-10 | the step starts with nothing selected, an empty box, the summary hidden and no delivery recorded |
| `Keywords.KeywordStep.ToggleKeyword` | src/app/components/StepSlide4.js:26-32 | the selection becomes its toggle, everything else is unchanged, no duplicates |
| `Keywords.KeywordStep.EditCustom` | src/app/components/StepSlide4.js:134 | typing replaces the box's text only |
| `Keywords.KeywordStep.AddCustom` | src/app/components/StepSlide4.js:35-41 | a non-empty, not yet selected trimmed value is appended and the box cleared; otherwise selection and box are unchanged |
| `Keywords.KeywordStep.KeyPress` | src/app/components/StepSlide4.js:44-49 | Enter behaves as AddCustom, any other key changes nothing |
| `Keywords.KeywordStep.SubmitEffect` | src/app/components/StepSlide4.js:52-64 | delivers, records and sets showSummary exactly as KeywordEffect says, keeping the invariant |
| `Keywords.SelectTwoThenAdd` | src/app/components/StepSlide4.js:26-60 | with the effect run after each selection change, selecting a, then c, then adding a new custom keyword delivers [a], then [a, c], then [a, c, trimmed custom] |
| `Keywords.AddDuplicate` | src/app/components/StepSlide4.js:35-41 | adding an already selected keyword keeps the selection and the box text, and the next effect delivers nothing |
| `Competitors.CompetitorEffect` | src/app/components/StepSlide5.js:65-93 | with a selection: deliver the well-formed payload iff it differs from the last delivery, record it, show the summary; with none: deliver the all-empty payload, hide the summary, keep the record |
| `Competitors.CompetitorEffectSettles` | src/app/components/StepSlide5.js:78-83 | a second run on unchanged non-empty selections delivers nothing |
| `Competitors.CompetitorRecordWellFormed` | src/app/components/StepSlide5.js:69-80 | the recorded payload always has total = business ++ search and is never all-empty |
| `Competitors.ReselectAfterClearIsSuppressed` | src/app/components/StepSlide5.js:78-93 | select "Comp-1", clear, re-select: the third run delivers nothing and the page keeps the all-empty payload |
| `Competitors.CompetitorEffectFixed` | src/app/components/StepSlide5.js:84-93 | the corrected effect also records the all-empty delivery as the last one; whatever it delivers is the payload it records, which is the payload of the current selections |
| `Competitors.FixedCompetitorEffectSyncsPage` | src/app/components/StepSlide5.js:65-93 | with the corrected effect the page's payload equals the payload of the current selections after every run |
| `Competitors.CompetitorStep.constructor` | src/app/components/StepSlide5.js:8-19 | both selections empty, both boxes empty and closed, summary hidden, nothing recorded |
| `Competitors.CompetitorStep.ToggleBusiness` | src/app/components/StepSlide5.js:26-30 | the business list becomes its toggle; the search list and all other state are unchanged |
| `Competitors.CompetitorStep.ToggleSearch` | src/app/components/StepSlide5.js:31-35 | the search list becomes its toggle; the business list and all other state are unchanged |
| `Competitors.CompetitorStep.RemoveBusiness` | src/app/components/StepSlide5.js:37-39 | the label is filtered out of the business list only |
| `Competitors.CompetitorStep.RemoveSearch` | src/app/components/StepSlide5.js:40-42 | the label is filtered out of the search list only |
| `Competitors.CompetitorStep.OpenBusinessInput` | src/app/components/StepSlide5.js:178 | the business "More" button opens the custom box |
| `Competitors.CompetitorStep.OpenSearchInput` | src/app/components/StepSlide5.js:252 | the search "More" button opens the custom box |
| `Competitors.CompetitorStep.EditBizInput` | src/app/components/StepSlide5.js:188 | typing replaces the business box's text |
| `Competitors.CompetitorStep.EditSearchInput` | src/app/components/StepSlide5.js:262 | typing replaces the search box's text |
| `Competitors.CompetitorStep.CancelBusinessInput` | src/app/components/StepSlide5.js:206-210 | cancel clears and closes the business box |
| `Competitors.CompetitorStep.CancelSearchInput` | src/app/components/StepSlide5.js:280-284 | cancel clears and closes the search box |
| `Competitors.CompetitorStep.AddCustomBusiness` | src/app/components/StepSlide5.js:45-53 | an all-whitespace box changes nothing; otherwise the trimmed value is appended if absent, and the box is cleared and closed either way |
| `Competitors.CompetitorStep.AddCustomSearch` | src/app/components/StepSlide5.js:54-62 | the same rule for the search list and box |
| `Competitors.CompetitorStep.BusinessKeyDown` | src/app/components/StepSlide5.js:189-195 | Enter adds the custom business value, Escape clears and closes the box, other keys change nothing |
| `Competitors.CompetitorStep.SearchKeyDown` | src/app/components/StepSlide5.js:263-269 | Enter adds the custom search value, Escape clears and closes the box, other keys change nothing |
| `Competitors.CompetitorStep.SubmitEffect` | src/app/components/StepSlide5.js:65-94 | delivers, records and sets showSummary exactly as CompetitorEffect says, keeping the invariant |
| `Competitors.SelectThenRemoveAll` | src/app/components/StepSlide5.js:37-93 | with the effect run after each change, selecting one competitor per group and removing both delivers business only, both, search only, then the all-empty payload |
| `Home.NextStep` | src/app/page.js:42-46 | next moves up by exactly one iff below 5 and never leaves 1..5 |
| `Home.BackStep` | src/app/page.js:48-52 | back moves down by exactly one iff above 1 and never leaves 1..5 |
| `Home.StepStaysInRange` | src/app/page.js:42-52 | from any step in 1..5, every sequence of next/back requests stays in 1..5 |
| `Home.NextBackInverse` | src/app/page.js:42-52 | next then back (below 5) and back then next (above 1) return to the same step |
| `Home.NextsFrom` | src/app/page.js:42-46 | k nexts from step s reach s + k, capped at 5 |
| `Home.NextsSaturate` | src/app/page.js:42-46 | from step 1, k nexts reach 1 + k for k < 4 and 5 from then on |
| `Home.ViewFor` | src/app/page.js:91-123 | steps 2..5 get their own view and every other value gets step 1's view |
| `Home.Wizard.CurrentView` | src/app/page.js:161 | in a valid state, step 1's view is shown exactly at step 1 |
| `Home.StripPrefix` | src/app/page.js:56-64 | a present prefix is removed once; otherwise the text is unchanged |
| `Home.StripSchemeAndWww` | src/app/page.js:56-64 | the result is a suffix of the input and equals it when none of the three prefixes starts it |
| `Home.NormalizeWebsite` | src/app/page.js:54-65 | the stored website is a suffix of the lowercased input and is the lowercased input when it has none of the prefixes |
| `Home.StripRecoversHost` | src/app/page.js:56-64 | "", "http://" or "https://" plus an optional "www." in front of a host is stripped back to the host |
| `Home.NormalizeRecoversHost` | src/app/page.js:54-65 | in any letter case, scheme + optional www + host normalises to the lowercased host |
| `Home.NormalizeHolaExample` | src/app/page.js:54-65 | "https://www.Hola.com" is stored as "hola.com" |
| `Home.NormalizeExampleOrg` | src/app/page.js:54-65 | "HTTP://Example.org" is stored as "example.org" |
| `Home.InfoOpenAfterButton` | src/app/page.js:129-132 | the info button flips the panel when unpinned and changes nothing when pinned |
| `Home.InfoOpenAfterMouseDown` | src/app/page.js:27-36 | a mousedown never opens the panel and closes it iff it is open, mounted, the target is outside it and not in the info button, and it is not pinned |
| `Home.PinnedPanelUnaffected` | src/app/page.js:27-132 | a pinned panel keeps its state through any sequence of info-button clicks and mousedowns |
| `Home.MouseDownNeverOpens` | src/app/page.js:27-36 | a closed panel stays closed through any sequence of mousedowns |
| `Home.StoredCompetitors` | src/app/page.js:86-89 | a delivered competitor payload is stored as is; a missing one becomes the all-empty payload |
| `Home.Wizard.constructor` | src/app/page.js:15-22 | the page starts at step 1, panel closed and unpinned, no data stored |
| `Home.Wizard.HandleNextStep` | src/app/page.js:42-46 | the step becomes NextStep of the old step and stays in 1..5 |
| `Home.Wizard.HandleBackStep` | src/app/page.js:48-52 | the step becomes BackStep of the old step and stays in 1..5 |
| `Home.Wizard.HandleWebsiteSubmit` | src/app/page.js:54-70 | the step-by-step reassignment of cleanWebsite stores NormalizeWebsite of the input |
| `Home.Wizard.HandleBusinessDataSubmit` | src/app/page.js:72-74 | the business data is stored as delivered |
| `Home.Wizard.HandleLanguageLocationSubmit` | src/app/page.js:76-78 | the language/location data is stored as delivered |
| `Home.Wizard.HandleKeywordSubmit` | src/app/page.js:80-83 | `data.keywords` is stored unchanged |
| `Home.Wizard.HandleCompetitorSubmit` | src/app/page.js:86-89 | the payload, or the all-empty payload for a missing one, is stored |
| `Home.Wizard.InfoClick` | src/app/page.js:129-132 | isInfoOpen follows InfoOpenAfterButton |
| `Home.Wizard.MouseDown` | src/app/page.js:27-36 | isInfoOpen follows InfoOpenAfterMouseDown |
| `Home.Wizard.SetPinned` | src/app/page.js:139 | the panel's pin flag is set as requested |
| `Home.Wizard.CloseInfo` | src/app/page.js:146 | the panel's own close callback closes it, pinned or not |
| `Summary.DigitRun` | src/app/components/Step5Slide2.js:15 | the count of trailing digits: all of them are digits and the character before them is not |
| `Summary.DigitRunAfterDash` | src/app/components/Step5Slide2.js:15 | the trailing digit run of text + "-" + digits is exactly the digits |
| `Summary.Clean` | src/app/components/Step5Slide2.js:15 | the result is a prefix of the input; when it differs, the input continues with "-" and one or more digits up to its end; input not ending in a digit is unchanged |
| `Summary.CleanStripsNumberSuffix` | src/app/components/Step5Slide2.js:15 | any text + "-" + non-empty digits is cleaned to that text |
| `Summary.CleanExamples` | src/app/components/Step5Slide2.js:15 | "Comp-1" becomes "Comp" and "a-1-2" becomes "a-1" |
| `Summary.FirstTruthy` | src/app/components/Step5Slide2.js:18-28 | the result is the first truthy candidate, or the fallback when none is truthy |
| `Summary.BusinessTitle` | src/app/components/Step5Slide2.js:18-22 | industry, else category, else offering, else "—" |
| `Summary.BusinessChip` | src/app/components/Step5Slide2.js:24-28 | category, else offering, else industry, else "—" |
| `Summary.TitleAndChipAgree` | src/app/components/Step5Slide2.js:18-28 | title and chip fall back to "—" together and are equal when at most one field is filled |
| `Summary.RightHeading` | src/app/components/Step5Slide2.js:121 | the heading is the business title unless that is "—", in which case it is "Technology & Software"; it is never "—" |
| `Summary.AsArray` | src/app/components/Step5Slide2.js:31-47 | an array value is used as is; a missing or non-array value becomes the empty sequence |
| `Summary.RightCardList` | src/app/components/Step5Slide2.js:51-52 | business if non-empty, else search if non-empty, else total; always exactly one of the three, never a merge |
| `Summary.RightCardOfPayload` | src/app/components/Step5Slide2.js:51-52 | for a well-formed competitor payload the right card shows the business group, or the search group when there is no business competitor |
| `Summary.Take` | src/app/components/Step5Slide2.js:108 | `slice(0, n)` is a prefix of length min(n, length) |
| `Summary.CleanAll` | src/app/components/Step5Slide2.js:127 | each displayed competitor is the cleaned competitor at the same position |
| `Summary.Project` | src/app/components/Step5Slide2.js:14-127 | the slide shows the title, the cleaned chip, the normalised language selections, exactly `slice(0, 9)` of the keywords (all of them when there are at most 9), the fixed card title, the heading RightHeading of the title (the title, or "Technology & Software" for "—"), and the first 6 right-card competitors, cleaned, in order |
| `Summary.ProjectNothingCollected` | src/app/components/Step5Slide2.js:11-52 | with nothing collected every list is empty, both business fields are "—" and the heading is "Technology & Software" |

## Left out

- Rendering: JSX, Tailwind classes, icons and the chips' selected and unselected looks. The add button's `disabled` state (StepSlide4.js:140) is left out too; the handler checks the same condition anyway.
- src/app/components/Sidebar.js is not part of this model. Its only behaviour, forwarding `onInfoClick`, is `Home.Wizard.InfoClick`.
- src/app/components/ParentComponent.js is not part of this model. It is a demo harness that page.js never uses.
- Auto-scroll (`setTimeout`/`scrollTo`), focusing the inline inputs, and registering the document mousedown listener. These are DOM and timing plumbing. DOM containment (`contains`, `closest`) and whether the panel is mounted are boolean parameters of `Home.Wizard.MouseDown`.
- React scheduling. Submission effects are explicit `SubmitEffect` calls made after each change of the selections they depend on, and functional updates are direct assignments. Remounting a step when the user navigates away and back is not modelled; it would be a fresh object from the constructor.
- `typeof onCompetitorSubmit === "function"` and `onKeywordSubmit?.(…)`: page.js always passes these callbacks, so delivery is always possible.
- `submittedAt: new Date()` and `console.log`. These are clock access and logging.
- Unicode semantics of `toLowerCase` and `trim`. The model lowercases ASCII letters only and trims ASCII whitespace only.
- `clean`'s `typeof s === "string"` guard. Every value reaching it is a string in this model.
- The components Step1Slide1, StepSlide2, StepSlide3, InfoPanel, Steps and ThemeToggle are not part of this model. Their payloads enter only as values: `BusinessData` with the three fields the summary reads, and `LanguageLocationData` with its `selections`.
- A "5b" summary step. page.js has none.

## Findings

| source | as written | input that shows it | evidently intended | confidence | as-written member | corrected member |
|---|---|---|---|---|---|---|
| src/app/components/StepSlide4.js:61-63 | when the selection becomes empty, the effect delivers nothing, so the page keeps the last non-empty keyword list | select "Keyword A", run the effect (delivers ["Keyword A"]), toggle it off, run the effect: nothing is delivered and the page still holds ["Keyword A"] | deliver `{ keywords: [] }` when the selection is cleared, so the info panel and the summary clear their keywords; `FixedKeywordEffectSyncsPage` proves that the page then always equals the selection | medium, not executed | `Keywords.ClearedKeywordsStayWithPage` | `Keywords.KeywordEffectFixed` |
| src/app/components/StepSlide5.js:84-93 | the all-empty delivery does not update `lastSubmittedData`, so re-selecting what was last delivered before the clear is treated as unchanged | select "Comp-1" (delivered), remove it (all-empty delivered), select "Comp-1" again: nothing is delivered and the page keeps the all-empty payload | record the all-empty delivery as the last one; `FixedCompetitorEffectSyncsPage` proves that the page then always holds the payload of the current selections | medium, not executed | `Competitors.ReselectAfterClearIsSuppressed` | `Competitors.CompetitorEffectFixed` |

The classes `KeywordStep` and `CompetitorStep` follow the code as written. The corrected effects are what the page-synchronisation lemmas are proved about.
