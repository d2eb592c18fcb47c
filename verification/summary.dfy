/**
 * The summary slide (component Step5Slide2): a pure projection of the collected
 * data onto the fields it displays.
 */
module Summary {
  import opened Wrappers
  import opened Text
  import opened Payloads

  const NoBusiness := "—"
  const DefaultHeading := "Technology & Software"
  const RightCardTitle := "Business Selected"
  const MaxKeywordTags := 9
  const MaxCompetitorTags := 6

  /** The length of the run of digits that ends `s`. */
  function DigitRun(s: string): (k: nat)
    ensures k <= |s|
    ensures AllDigits(s[|s| - k..])
    ensures k < |s| ==> !IsDigit(s[|s| - k - 1])
  {
    if s != [] && IsDigit(s[|s| - 1]) then
      var init := s[..|s| - 1];
      var k := DigitRun(init);
      assert s[|s| - (k + 1)..] == init[|init| - k..] + [s[|s| - 1]];
      assert k + 1 < |s| ==> s[|s| - (k + 1) - 1] == init[|init| - k - 1];
      k + 1
    else 0
  }

  /**
   * `clean`: `s.replace(/-\d+$/, "")`. A "-" followed by one or more digits that
   * run to the end of the string is removed together with them; any other
   * string is returned unchanged.
   */
  function Clean(s: string): (r: string)
    ensures r <= s
    ensures r != s ==> |r| + 1 < |s| && s[|r|] == '-' && AllDigits(s[|r| + 1..])
    ensures s == [] || !IsDigit(s[|s| - 1]) ==> r == s
  {
    var k := DigitRun(s);
    if 0 < k < |s| && s[|s| - k - 1] == '-' then s[..|s| - k - 1] else s
  }

  /** The digit run at the end of text, "-", digits is exactly those digits. */
  lemma {:induction false} DigitRunAfterDash(p: string, digits: string)
    requires AllDigits(digits)
    ensures DigitRun(p + "-" + digits) == |digits|
    decreases |digits|
  {
    var s := p + "-" + digits;
    if digits == [] {
      assert s[|s| - 1] == '-';
    } else {
      var shorter := digits[..|digits| - 1];
      assert s[..|s| - 1] == p + "-" + shorter;
      DigitRunAfterDash(p, shorter);
    }
  }

  /** Any text followed by "-" and a non-empty run of digits is cleaned back to that text. */
  lemma CleanStripsNumberSuffix(p: string, digits: string)
    requires digits != [] && AllDigits(digits)
    ensures Clean(p + "-" + digits) == p
  {
    var s := p + "-" + digits;
    DigitRunAfterDash(p, digits);
    assert s[|s| - |digits| - 1] == '-';
    assert s[..|s| - |digits| - 1] == p;
  }

  /** Clean removes exactly one such suffix: "a-1-2" becomes "a-1", not "a". */
  lemma CleanExamples()
    ensures Clean("Comp-1") == "Comp"
    ensures Clean("a-1-2") == "a-1"
  {
    var d1, d2 := "1", "2";
    assert AllDigits(d1) && AllDigits(d2);
    CleanStripsNumberSuffix("Comp", d1);
    assert "Comp" + "-" + d1 == "Comp-1";
    CleanStripsNumberSuffix("a-1", d2);
    assert "a-1" + "-" + d2 == "a-1-2";
  }

  /** `x` is truthy in the source's `||` chains: present and not the empty string. */
  predicate Truthy(x: Option<string>) {
    x.Some? && x.value != ""
  }

  /** `a || b || … || fallback`: the first truthy candidate, else the fallback. */
  function FirstTruthy(candidates: seq<Option<string>>, fallback: string): (r: string)
    ensures (forall i :: 0 <= i < |candidates| ==> !Truthy(candidates[i])) ==> r == fallback
    ensures forall k :: (0 <= k < |candidates| && Truthy(candidates[k]) &&
                         (forall j :: 0 <= j < k ==> !Truthy(candidates[j]))) ==> r == candidates[k].value
  {
    if candidates == [] then fallback
    else if Truthy(candidates[0]) then candidates[0].value
    else FirstTruthy(candidates[1..], fallback)
  }

  /** `businessData?.f`: absent when there is no business data at all. */
  function Industry(b: Option<BusinessData>): Option<string> {
    if b.Some? then b.value.industry else None
  }

  function Category(b: Option<BusinessData>): Option<string> {
    if b.Some? then b.value.category else None
  }

  function Offering(b: Option<BusinessData>): Option<string> {
    if b.Some? then b.value.offering else None
  }

  /** businessTitle: industry, else category, else offering, else "—". */
  function BusinessTitle(b: Option<BusinessData>): (r: string)
    ensures Truthy(Industry(b)) ==> r == Industry(b).value
    ensures !Truthy(Industry(b)) && Truthy(Category(b)) ==> r == Category(b).value
    ensures !Truthy(Industry(b)) && !Truthy(Category(b)) && Truthy(Offering(b)) ==> r == Offering(b).value
    ensures !Truthy(Industry(b)) && !Truthy(Category(b)) && !Truthy(Offering(b)) ==> r == NoBusiness
  {
    var cs := [Industry(b), Category(b), Offering(b)];
    assert cs[0] == Industry(b) && cs[1] == Category(b) && cs[2] == Offering(b);
    FirstTruthy(cs, NoBusiness)
  }

  /** businessChip: category, else offering, else industry, else "—". */
  function BusinessChip(b: Option<BusinessData>): (r: string)
    ensures Truthy(Category(b)) ==> r == Category(b).value
    ensures !Truthy(Category(b)) && Truthy(Offering(b)) ==> r == Offering(b).value
    ensures !Truthy(Category(b)) && !Truthy(Offering(b)) && Truthy(Industry(b)) ==> r == Industry(b).value
    ensures !Truthy(Category(b)) && !Truthy(Offering(b)) && !Truthy(Industry(b)) ==> r == NoBusiness
  {
    var cs := [Category(b), Offering(b), Industry(b)];
    assert cs[0] == Category(b) && cs[1] == Offering(b) && cs[2] == Industry(b);
    FirstTruthy(cs, NoBusiness)
  }

  /**
   * Title and chip read the same three fields in different orders: they fall
   * back to "—" together, and they agree whenever at most one field is filled in.
   */
  lemma TitleAndChipAgree(b: Option<BusinessData>)
    ensures (BusinessTitle(b) == NoBusiness && !Truthy(Industry(b)) && !Truthy(Category(b)) && !Truthy(Offering(b)))
        <==> (BusinessChip(b) == NoBusiness && !Truthy(Industry(b)) && !Truthy(Category(b)) && !Truthy(Offering(b)))
    ensures FilledFields(b) <= 1 ==> BusinessTitle(b) == BusinessChip(b)
  {
  }

  /** How many of the three business fields are truthy. */
  function FilledFields(b: Option<BusinessData>): nat {
    (if Truthy(Industry(b)) then 1 else 0) + (if Truthy(Category(b)) then 1 else 0) +
    (if Truthy(Offering(b)) then 1 else 0)
  }

  /** The right card's heading: the business title, or a fixed default instead of "—". */
  function RightHeading(title: string): (r: string)
    ensures r != NoBusiness
    ensures title != NoBusiness ==> r == title
    ensures title == NoBusiness ==> r == DefaultHeading
  {
    if title != NoBusiness then title else DefaultHeading
  }

  /** `Array.isArray(v) ? v : []` */
  function AsArray<T>(v: JsArray<T>): (r: seq<T>)
    ensures v.Array? ==> r == v.items
    ensures !v.Array? ==> r == []
  {
    if v.Array? then v.items else []
  }

  /** The competitor data as the slide receives it: any field may be missing or not an array. */
  datatype CompetitorRecord = CompetitorRecord(
    businessCompetitors: JsArray<string>,
    searchCompetitors: JsArray<string>,
    totalCompetitors: JsArray<string>)

  /** The record the page holds after a competitor payload was delivered. */
  function RecordOf(p: CompetitorPayload): CompetitorRecord {
    CompetitorRecord(Array(p.businessCompetitors), Array(p.searchCompetitors), Array(p.totalCompetitors))
  }

  function BizComps(c: Option<CompetitorRecord>): seq<string> {
    if c.Some? then AsArray(c.value.businessCompetitors) else []
  }

  function SearchComps(c: Option<CompetitorRecord>): seq<string> {
    if c.Some? then AsArray(c.value.searchCompetitors) else []
  }

  function TotalComps(c: Option<CompetitorRecord>): seq<string> {
    if c.Some? then AsArray(c.value.totalCompetitors) else []
  }

  /**
   * rightCardList: the business competitors if there are any, else the search
   * competitors if there are any, else the total list; one of the three, never a merge.
   */
  function RightCardList(c: Option<CompetitorRecord>): (r: seq<string>)
    ensures r == BizComps(c) || r == SearchComps(c) || r == TotalComps(c)
    ensures BizComps(c) != [] ==> r == BizComps(c)
    ensures BizComps(c) == [] && SearchComps(c) != [] ==> r == SearchComps(c)
    ensures BizComps(c) == [] && SearchComps(c) == [] ==> r == TotalComps(c)
  {
    var biz, search := BizComps(c), SearchComps(c);
    if |biz| > 0 then biz else if |search| > 0 then search else TotalComps(c)
  }

  /**
   * For a well-formed payload from the competitor step the right card shows the
   * business group, or the search group when there is no business competitor:
   * never both groups.
   */
  lemma RightCardOfPayload(p: CompetitorPayload)
    requires WellFormed(p)
    ensures RightCardList(Some(RecordOf(p))) ==
              if p.businessCompetitors != [] then p.businessCompetitors else p.searchCompetitors
  {
  }

  /** `s.slice(0, n)` */
  function Take<T>(s: seq<T>, n: nat): (r: seq<T>)
    ensures r <= s
    ensures |r| == if |s| < n then |s| else n
  {
    if |s| <= n then s else s[..n]
  }

  /** The information the slide receives. */
  datatype SummaryInput = SummaryInput(
    businessData: Option<BusinessData>,
    languageLocationData: Option<LanguageLocationData>,
    keywordData: JsArray<string>,
    competitorData: Option<CompetitorRecord>)

  /** The fields the slide displays. */
  datatype SummaryView = SummaryView(
    businessTitle: string,
    businessTag: string,
    languageSelections: seq<LanguageSelection>,
    keywordTags: seq<string>,
    rightCardTitle: string,
    rightCardHeading: string,
    rightCardTags: seq<string>)

  function LanguageSelections(d: Option<LanguageLocationData>): seq<LanguageSelection> {
    if d.Some? then AsArray(d.value.selections) else []
  }

  function CleanAll(s: seq<string>): (r: seq<string>)
    ensures |r| == |s|
    ensures forall i :: 0 <= i < |s| ==> r[i] == Clean(s[i])
  {
    seq(|s|, i requires 0 <= i < |s| => Clean(s[i]))
  }

  /**
   * The whole projection: the left card shows the title and the cleaned chip,
   * the keyword card the first nine keywords, the right card its heading and the
   * first six competitors of rightCardList, cleaned, in their original order.
   */
  function Project(input: SummaryInput): (v: SummaryView)
    ensures v.businessTitle == BusinessTitle(input.businessData)
    ensures v.businessTag == Clean(BusinessChip(input.businessData))
    ensures v.languageSelections == LanguageSelections(input.languageLocationData)
    ensures |v.keywordTags| <= MaxKeywordTags && v.keywordTags <= AsArray(input.keywordData)
    ensures |AsArray(input.keywordData)| >= MaxKeywordTags ==> |v.keywordTags| == MaxKeywordTags
    ensures |AsArray(input.keywordData)| <= MaxKeywordTags ==> v.keywordTags == AsArray(input.keywordData)
    ensures v.keywordTags == Take(AsArray(input.keywordData), MaxKeywordTags)
    ensures v.rightCardTitle == RightCardTitle
    ensures v.rightCardHeading == RightHeading(v.businessTitle) && v.rightCardHeading != NoBusiness
    ensures v.businessTitle != NoBusiness ==> v.rightCardHeading == v.businessTitle
    ensures v.businessTitle == NoBusiness ==> v.rightCardHeading == DefaultHeading
    ensures |v.rightCardTags| <= MaxCompetitorTags
    ensures |v.rightCardTags| == |Take(RightCardList(input.competitorData), MaxCompetitorTags)|
    ensures forall i :: 0 <= i < |v.rightCardTags| ==> v.rightCardTags[i] == Clean(RightCardList(input.competitorData)[i])
  {
    var title := BusinessTitle(input.businessData);
    SummaryView(
      title,
      Clean(BusinessChip(input.businessData)),
      LanguageSelections(input.languageLocationData),
      Take(AsArray(input.keywordData), MaxKeywordTags),
      RightCardTitle,
      RightHeading(title),
      CleanAll(Take(RightCardList(input.competitorData), MaxCompetitorTags)))
  }

  /** With nothing collected, every list on the slide is empty and both business fields show "—". */
  lemma ProjectNothingCollected()
    ensures var v := Project(SummaryInput(None, None, Undefined, None));
            v.businessTitle == NoBusiness && v.businessTag == NoBusiness &&
            v.languageSelections == [] && v.keywordTags == [] && v.rightCardTags == [] &&
            v.rightCardHeading == DefaultHeading
  {
  }
}
