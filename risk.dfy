/** The keyword risk classifiers of app.py: `analyze_text_risk` and the
    keyword and exception logic of `analyze_website_risk`. */
module Risk {
  import opened Wrappers
  import opened TextSearch

  datatype RiskLevel = Low | Medium | High

  /** The `{riskLevel, reason}` object a classifier returns. */
  datatype Verdict = Verdict(riskLevel: RiskLevel, reason: string)

  const TextKeywords: seq<string> := ["free", "paid", "job"]
  const PageKeywords: seq<string> := ["login", "password", "bank", "account"]

  const OfferReason: string := "Possible scam or unsolicited offer"
  const NoPatternReason: string := "No major suspicious patterns found"
  const PageReason: string := "Suspicious keywords found on page"
  const UnreachablePrefix: string := "Unable to reach site: "

  /** Some word of `words` is a substring of the lower-cased `s`. */
  ghost predicate HasKeyword(words: seq<string>, s: string)
  {
    exists k | 0 <= k < |words| :: Occurs(words[k], Lower(s))
  }

  /** `analyze_text_risk`: Medium exactly when "free", "paid" or "job"
      occurs anywhere in the lower-cased text, Low otherwise. */
  function AnalyzeTextRisk(text: string): (v: Verdict)
    ensures v.riskLevel == Medium <==> HasKeyword(TextKeywords, text)
    ensures v.riskLevel == Medium || v.riskLevel == Low
    ensures v.reason == if v.riskLevel == Medium then OfferReason else NoPatternReason
  {
    if AnyOccurs(TextKeywords, Lower(text)) then Verdict(Medium, OfferReason)
    else Verdict(Low, NoPatternReason)
  }

  /** The keyword part of `analyze_website_risk`, over the fetched body:
      High exactly when "login", "password", "bank" or "account" occurs
      anywhere in the lower-cased body, Low otherwise. */
  function PageBodyRisk(body: string): (v: Verdict)
    ensures v.riskLevel == High <==> HasKeyword(PageKeywords, body)
    ensures v.riskLevel == High || v.riskLevel == Low
    ensures v.reason == if v.riskLevel == High then PageReason else NoPatternReason
  {
    if AnyOccurs(PageKeywords, Lower(body)) then Verdict(High, PageReason)
    else Verdict(Low, NoPatternReason)
  }

  /** `analyze_website_risk`, given the outcome of fetching the URL: a body
      is classified by its keywords; a fetch that raised becomes Medium
      with the exception's message appended to the fixed prefix. */
  function AnalyzeWebsiteRisk(fetch: Result<string, string>): (v: Verdict)
    ensures fetch.Ok? ==> v == PageBodyRisk(fetch.value)
    ensures fetch.Err? ==> v.riskLevel == Medium && v.reason == UnreachablePrefix + fetch.error
    ensures v.riskLevel == Medium <==> fetch.Err?
  {
    match fetch
    case Ok(body) => PageBodyRisk(body)
    case Err(msg) => Verdict(Medium, UnreachablePrefix + msg)
  }

  /** A failed fetch is told apart from every fetched body: whatever the
      message and the body, the two reasons differ (the first starts with
      'U', the others with 'S' or 'N'). */
  lemma UnreachableReason(msg: string, body: string)
    ensures AnalyzeWebsiteRisk(Err(msg)).reason != AnalyzeWebsiteRisk(Ok(body)).reason
  {
    var failed := AnalyzeWebsiteRisk(Err(msg)).reason;
    var fetched := AnalyzeWebsiteRisk(Ok(body)).reason;
    assert failed[0] == UnreachablePrefix[0] == 'U';
    assert fetched[0] == 'S' || fetched[0] == 'N';
  }

  /** The classifiers ignore letter case: a text and its lower-cased form
      get the same verdict. */
  lemma {:induction false} CaseInsensitive(t: string)
    ensures AnalyzeTextRisk(Lower(t)) == AnalyzeTextRisk(t)
    ensures PageBodyRisk(Lower(t)) == PageBodyRisk(t)
  {
    LowerIdempotent(t);
  }

  /** The match is unanchored: a keyword found in `t` is still found when
      `t` is embedded in a longer text. */
  lemma {:induction false} KeywordSurvivesContext(words: seq<string>, p: string, t: string, q: string)
    requires HasKeyword(words, t)
    ensures HasKeyword(words, p + t + q)
  {
    var k :| 0 <= k < |words| && Occurs(words[k], Lower(t));
    LowerConcat(p, t);
    LowerConcat(p + t, q);
    OccursInside(words[k], Lower(p), Lower(t), Lower(q));
  }

  /** Medium text stays Medium, and a High page stays High, inside any surrounding text. */
  lemma {:induction false} VerdictSurvivesContext(p: string, t: string, q: string)
    ensures AnalyzeTextRisk(t).riskLevel == Medium ==> AnalyzeTextRisk(p + t + q).riskLevel == Medium
    ensures PageBodyRisk(t).riskLevel == High ==> PageBodyRisk(p + t + q).riskLevel == High
  {
    if HasKeyword(TextKeywords, t) { KeywordSurvivesContext(TextKeywords, p, t, q); }
    if HasKeyword(PageKeywords, t) { KeywordSurvivesContext(PageKeywords, p, t, q); }
  }

  /** Any text with "FREE" in it, in whatever surroundings, is a Medium
      risk ("This is a FREE offer" is one such text). */
  lemma {:induction false} UpperCaseOfferIsMedium(p: string, q: string)
    ensures AnalyzeTextRisk(p + "FREE" + q).riskLevel == Medium
  {
    assert Lower("FREE") == "free";
    assert OccursAt(TextKeywords[0], Lower("FREE"), 0);
    VerdictSurvivesContext(p, "FREE", q);
  }

  /** Any page body with "Bank" in it is a High risk ("Enter your Bank
      account" is one such body). */
  lemma {:induction false} CapitalisedBankIsHigh(p: string, q: string)
    ensures PageBodyRisk(p + "Bank" + q).riskLevel == High
  {
    assert Lower("Bank") == "bank";
    assert OccursAt(PageKeywords[2], Lower("Bank"), 0);
    VerdictSurvivesContext(p, "Bank", q);
  }

  /** The empty text (a request without a "text" field) is a Low risk. */
  lemma EmptyTextIsLow()
    ensures AnalyzeTextRisk("") == Verdict(Low, NoPatternReason)
  {
    forall k | 0 <= k < |TextKeywords| ensures !Occurs(TextKeywords[k], Lower("")) {
      assert |TextKeywords[k]| > 0;
    }
  }
}
