/** The in-memory scan log of app.py (`scan_history`), the request handlers
    that append to it, and the statistics computed over it. */
module ScanHistory {
  import opened Wrappers
  import opened Risk

  datatype ScanType = Text | Screenshot | Website

  /** One entry of the scan log. As in the source's dictionaries, the risk
      level is stored under its JSON name ("Low", "Medium" or "High"). */
  datatype ScanRecord = ScanRecord(timestamp: string, scanType: ScanType, content: string, riskLevel: string)

  /** The keys of the statistics dictionary. */
  const LevelNames: set<string> := {"Low", "Medium", "High"}

  /** The JSON name of a risk level. */
  function LevelName(level: RiskLevel): (name: string)
    ensures name in LevelNames
    ensures level == Low <==> name == "Low"
    ensures level == Medium <==> name == "Medium"
    ensures level == High <==> name == "High"
  {
    match level
    case Low => "Low"
    case Medium => "Medium"
    case High => "High"
  }

  const ContentLimit: nat := 50
  const Ellipsis: string := "..."

  /** The display summary of a text scan: `text[:50]`, followed by "..."
      when the text is longer than 50 characters. */
  function TextContent(text: string): (c: string)
    ensures |text| <= ContentLimit ==> c == text
    ensures |text| > ContentLimit ==> c == text[..ContentLimit] + Ellipsis
    ensures text[..if |text| < ContentLimit then |text| else ContentLimit] <= c
    ensures |c| <= ContentLimit + |Ellipsis|
  {
    text[..if |text| < ContentLimit then |text| else ContentLimit]
      + (if |text| > ContentLimit then Ellipsis else "")
  }

  /** The number of entries of `h` whose stored level is `level`. */
  function Count(h: seq<ScanRecord>, level: string): (n: nat)
    ensures n <= |h|
  {
    if h == [] then 0
    else Count(h[..|h| - 1], level) + (if h[|h| - 1].riskLevel == level then 1 else 0)
  }

  /** The positions of `h` whose stored level is `level`. */
  ghost function LevelPositions(h: seq<ScanRecord>, level: string): set<int>
  {
    set i | 0 <= i < |h| && h[i].riskLevel == level
  }

  /** Every stored level is one of the three known names. */
  ghost predicate AllRecognised(h: seq<ScanRecord>)
  {
    forall i | 0 <= i < |h| :: h[i].riskLevel in LevelNames
  }

  /** Appending one entry adds one to the count of its own level and
      leaves every other count unchanged. */
  lemma CountAppend(h: seq<ScanRecord>, r: ScanRecord, level: string)
    ensures Count(h + [r], level) == Count(h, level) + (if r.riskLevel == level then 1 else 0)
  {
    assert (h + [r])[..|h|] == h;
  }

  /** Count is the number of entries with that level. */
  lemma {:induction false} CountIsNumberOfEntries(h: seq<ScanRecord>, level: string)
    ensures Count(h, level) == |LevelPositions(h, level)|
  {
    if h != [] {
      var n := |h| - 1;
      CountIsNumberOfEntries(h[..n], level);
      var before := LevelPositions(h[..n], level);
      assert n !in before;
      if h[n].riskLevel == level {
        assert LevelPositions(h, level) == before + {n};
      } else {
        assert LevelPositions(h, level) == before;
      }
    }
  }

  /** A level's count is 0 exactly when no entry has that level. */
  lemma {:induction false} CountZero(h: seq<ScanRecord>, level: string)
    ensures Count(h, level) == 0 <==> forall i | 0 <= i < |h| :: h[i].riskLevel != level
  {
    if h != [] {
      var n := |h| - 1;
      CountZero(h[..n], level);
      assert forall i | 0 <= i < n :: h[..n][i] == h[i];
    }
  }

  /** Entries with any other level are counted nowhere: the three counts add
      up to at most the history's length, and to exactly its length when
      every stored level is recognised. */
  lemma {:induction false} CountsCoverHistory(h: seq<ScanRecord>)
    ensures Count(h, "Low") + Count(h, "Medium") + Count(h, "High") <= |h|
    ensures Count(h, "Low") + Count(h, "Medium") + Count(h, "High") == |h| <==> AllRecognised(h)
  {
    if h != [] {
      var n := |h| - 1;
      CountsCoverHistory(h[..n]);
      assert forall i | 0 <= i < n :: h[..n][i] == h[i];
      if AllRecognised(h) {
        assert AllRecognised(h[..n]);
      }
    }
  }

  /** A picture received by the screenshot handler, together with what the
      external OCR engine makes of it: the extracted text, or the message of
      the exception raised while opening or reading it. */
  datatype ImageUpload = ImageUpload(filename: string, ocr: Result<string, string>)

  const NoImageError: string := "No image uploaded"
  const OcrFailedReason: string := "OCR failed"

  /** The three response shapes of the screenshot handler. */
  datatype ScreenshotResponse =
    | NoImageUploaded(error: string)
    | OcrFailed(riskLevel: RiskLevel, reason: string, error: string)
    | Analyzed(extractedText: string, riskLevel: RiskLevel, reason: string)
  {
    /** The HTTP status the handler sends with this body. */
    function StatusCode(): nat
    {
      match this
      case NoImageUploaded(_) => 400
      case OcrFailed(_, _, _) => 500
      case Analyzed(_, _, _) => 200
    }
  }

  /** The process-wide scan log and the handlers that use it. */
  class ScanLog {
    var records: seq<ScanRecord>

    /** Every entry was written by a handler, so its level is a known name. */
    ghost predicate Valid()
      reads this
    {
      AllRecognised(records)
    }

    /** The log starts empty when the process starts. */
    constructor ()
      ensures Valid() && records == []
    {
      records := [];
    }

    /** `scan_history.append(record)`: the new entry goes at the tail and no
        earlier entry changes. */
    method Append(r: ScanRecord)
      requires Valid() && r.riskLevel in LevelNames
      modifies this
      ensures Valid()
      ensures records == old(records) + [r]
    {
      records := records + [r];
    }

    /** `/api/analyze-text`: classifies the "text" field (empty when absent),
        logs one Text entry with the truncated text and returns the verdict. */
    method AnalyzeText(textField: Option<string>, now: string) returns (v: Verdict)
      requires Valid()
      modifies this
      ensures Valid()
      ensures v == AnalyzeTextRisk(if textField.Some? then textField.value else "")
      ensures records == old(records)
        + [ScanRecord(now, Text, TextContent(if textField.Some? then textField.value else ""), LevelName(v.riskLevel))]
    {
      var text := if textField.Some? then textField.value else "";
      v := AnalyzeTextRisk(text);
      Append(ScanRecord(now, Text, TextContent(text), LevelName(v.riskLevel)));
    }

    /** `/api/analyze-screenshot`: without an image, a 400 error; when OCR
        raises, a Medium "OCR failed" answer with status 500; in neither case
        is anything logged. Otherwise the extracted text is classified, one
        Screenshot entry naming the file is logged, and the text and verdict
        are returned together. */
    method AnalyzeScreenshot(image: Option<ImageUpload>, now: string) returns (resp: ScreenshotResponse)
      requires Valid()
      modifies this
      ensures Valid()
      ensures image.None? ==>
        resp == NoImageUploaded(NoImageError) && resp.StatusCode() == 400 && records == old(records)
      ensures image.Some? && image.value.ocr.Err? ==>
        resp == OcrFailed(Medium, OcrFailedReason, image.value.ocr.error) && resp.StatusCode() == 500
        && records == old(records)
      ensures image.Some? && image.value.ocr.Ok? ==>
        var text := image.value.ocr.value;
        var v := AnalyzeTextRisk(text);
        resp == Analyzed(text, v.riskLevel, v.reason) && resp.StatusCode() == 200
        && records == old(records) + [ScanRecord(now, Screenshot, image.value.filename, LevelName(v.riskLevel))]
    {
      if image.None? {
        return NoImageUploaded(NoImageError);
      }
      var upload := image.value;
      match upload.ocr {
        case Err(msg) =>
          return OcrFailed(Medium, OcrFailedReason, msg);
        case Ok(text) =>
          var v := AnalyzeTextRisk(text);
          Append(ScanRecord(now, Screenshot, upload.filename, LevelName(v.riskLevel)));
          resp := Analyzed(text, v.riskLevel, v.reason);
      }
    }

    /** `/api/analyze-website`: classifies the outcome of fetching the "url"
        field (empty when absent) and logs one Website entry holding the URL
        as given, whether the fetch succeeded or not. */
    method AnalyzeWebsite(urlField: Option<string>, fetch: Result<string, string>, now: string) returns (v: Verdict)
      requires Valid()
      modifies this
      ensures Valid()
      ensures v == AnalyzeWebsiteRisk(fetch)
      ensures records == old(records)
        + [ScanRecord(now, Website, if urlField.Some? then urlField.value else "", LevelName(v.riskLevel))]
    {
      var url := if urlField.Some? then urlField.value else "";
      v := AnalyzeWebsiteRisk(fetch);
      Append(ScanRecord(now, Website, url, LevelName(v.riskLevel)));
    }

    /** `/api/history`: the whole log, in insertion order. */
    method GetHistory() returns (h: seq<ScanRecord>)
      ensures h == records
    {
      h := records;
    }

    /** `/api/stats`: one pass over the log counting each known level;
        entries with any other level are skipped. */
    method GetStats() returns (stats: map<string, nat>)
      ensures stats.Keys == LevelNames
      ensures forall level | level in stats :: stats[level] == Count(records, level)
      ensures Valid() ==> stats["Low"] + stats["Medium"] + stats["High"] == |records|
    {
      stats := map["Low" := 0, "Medium" := 0, "High" := 0];
      for i := 0 to |records|
        invariant stats.Keys == LevelNames
        invariant forall level | level in stats :: stats[level] == Count(records[..i], level)
      {
        var level := records[i].riskLevel;
        if level in stats {
          stats := stats[level := stats[level] + 1];
        }
        assert records[..i + 1][..i] == records[..i];
      }
      assert records[..|records|] == records;
      CountsCoverHistory(records);
    }
  }

  /** One Low text scan, a screenshot request without an image and two
      unreachable sites give the statistics {Low: 1, Medium: 2, High: 0}. */
  method StatsExample()
  {
    var log := new ScanLog();
    EmptyTextIsLow();
    var v1 := log.AnalyzeText(None, "t1");
    ghost var h1 := log.records;
    var r := log.AnalyzeScreenshot(None, "t2");
    var v2 := log.AnalyzeWebsite(Some("http://unreachable.invalid"), Err("timed out"), "t3");
    ghost var h2 := log.records;
    var v3 := log.AnalyzeWebsite(None, Err("Invalid URL ''"), "t4");
    ghost var h3 := log.records;
    assert h1 == [] + [h1[0]] && h1[0].riskLevel == "Low";
    assert h2 == h1 + [h2[1]] && h2[1].riskLevel == "Medium";
    assert h3 == h2 + [h3[2]] && h3[2].riskLevel == "Medium";
    forall level | level in LevelNames
      ensures Count(h3, level) == if level == "Low" then 1 else if level == "Medium" then 2 else 0
    {
      CountAppend([], h1[0], level);
      CountAppend(h1, h2[1], level);
      CountAppend(h2, h3[2], level);
    }
    var stats := log.GetStats();
    assert stats == map["Low" := 1, "Medium" := 2, "High" := 0];
  }
}
