# PhishGuard Lite: keyword risk classifier and scan log, in Dafny

This project models the core of PhishGuard Lite's back end (`app.py`). It has
two parts.

- **Classifiers.** Two keyword checks give a coarse risk level. A text is
  lower-cased; if "free", "paid" or "job" occurs anywhere in it, it is
  *Medium*, otherwise *Low*. A fetched web page is checked the same way for
  "login", "password", "bank" and "account"; a match is *High*, no match is
  *Low*. A page that cannot be fetched is *Medium*, with the reason
  "Unable to reach site: " followed by the error message. The match is a
  plain substring test, so it also matches inside longer words.
- **Scan log.** The handlers for text, screenshot and website scans append
  one record each to an in-memory history. The history endpoint returns the
  log as it stands. The statistics endpoint counts the records per level.

Modules:

- `Wrappers` (`wrappers.dfy`): `Option` and `Result`. A `Result` carries the
  outcome of a call to an external collaborator: `Ok(text)`, or `Err(message)`
  when the call raised.
- `TextSearch` (`text_search.dfy`): ASCII lower-casing and the substring test
  `word in text`. Here `Occurs` is the reference definition ("a slice at some
  position equals the word"). `Contains` and `AnyOccurs` are the left-to-right
  searches, and they are proved equal to it.
- `Risk` (`risk.dfy`): `RiskLevel`, `Verdict`, the keyword lists, the reason
  strings and the three classifiers, with lemmas about case, context and
  examples.
- `ScanHistory` (`scan_history.dfy`): `ScanRecord`, the 50-character content
  truncation, the recursive `Count` that specifies the statistics, and the
  class `ScanLog`. The class holds the log as a `seq` field. Its methods are
  the handlers and the statistics loop.

The request is read as plain parameters. A JSON field that may be absent is an
`Option<string>`. As in `data.get("text", "")`, an absent field means the empty
string. The uploaded image is an `Option<ImageUpload>`; each upload carries its
file name and what the OCR engine returned for it. The page fetch is a
`Result<string, string>` parameter. Timestamps are an opaque `now` string.

As in the source's dictionaries, a `ScanRecord` stores its risk level as its
JSON name ("Low", "Medium", "High"). This keeps the statistics loop's test
"is this level one of the keys" meaningful. `ScanLog.Valid()` states that every
stored level is one of the three names; every handler keeps this true. So the
three counts always add up to the length of the log.

The code keeps `scan_history` in a plain module-level list with no lock; the
model is sequential (see below).

## Model

| member | source | states |
|---|---|---|
| TextSearch.Lower | app.py:37 | the lowered text has the same length, and each character is that character lower-cased (ASCII) |
| TextSearch.Contains | app.py:38 | the left-to-right search returns true exactly when the word occurs as a contiguous slice of the text at some position |
| TextSearch.AnyOccurs | app.py:38 | `any(word in s for word in words)` is true exactly when some word of the list occurs in `s` |
| Risk.AnalyzeTextRisk | app.py:36-46 | Medium exactly when "free", "paid" or "job" occurs in the lower-cased text, otherwise Low; the reason is the scam-offer text for Medium and the no-pattern text for Low |
| Risk.PageBodyRisk | app.py:51-60 | High exactly when "login", "password", "bank" or "account" occurs in the lower-cased body, otherwise Low, with the matching fixed reason |
| Risk.AnalyzeWebsiteRisk | app.py:48-65 | a fetched body is classified by its keywords; a failed fetch gives Medium with reason "Unable to reach site: " + message; the verdict is Medium exactly when the fetch failed |
| Risk.UnreachableReason | app.py:52-65 | whatever the message and the body, a failed fetch's reason differs from the reason given to any fetched body |
| Risk.CaseInsensitive | app.py:37-52 | a text and its lower-cased form get the same text verdict and the same page verdict |
| Risk.KeywordSurvivesContext | app.py:38 | the match is unanchored: a keyword found in `t` is still found in `p + t + q` |
| Risk.VerdictSurvivesContext | app.py:38-52 | a Medium text stays Medium, and a High page stays High, inside any surrounding text |
| Risk.UpperCaseOfferIsMedium | app.py:36-42 | any text containing "FREE", whatever surrounds it, is Medium |
| Risk.CapitalisedBankIsHigh | app.py:51-56 | any page body containing "Bank", whatever surrounds it, is High |
| Risk.EmptyTextIsLow | app.py:43-46 | the empty text (an absent "text" field) is Low with the no-pattern reason |
| ScanHistory.LevelName | app.py:137 | each risk level maps to its own JSON name, and that name is a key of the statistics dictionary |
| ScanHistory.TextContent | app.py:80 | the content is the text itself when it has at most 50 characters, else its first 50 characters + "..."; it always starts with the first min(50, length) characters and has at most 53 |
| ScanHistory.Count | app.py:138-140 | the count of a level never exceeds the number of entries |
| ScanHistory.CountAppend | app.py:138-140 | appending one entry adds one to the count of its level and changes no other count |
| ScanHistory.CountIsNumberOfEntries | app.py:138-140 | the count of a level equals the number of positions holding an entry with that level |
| ScanHistory.CountZero | app.py:137-141 | a level's count is 0 exactly when no entry has that level |
| ScanHistory.CountsCoverHistory | app.py:139-140 | entries with unknown levels are not counted: the three counts add up to at most the number of entries, and to exactly that number when every level is known |
| ScanHistory.ScanLog.constructor | app.py:30 | the log starts empty |
| ScanHistory.ScanLog.Append | app.py:77 | the new record goes at the tail; earlier records are unchanged |
| ScanHistory.ScanLog.AnalyzeText | app.py:71-84 | returns the text verdict of the field (empty when absent) and appends exactly one Text record: the truncated content and the returned level |
| ScanHistory.ScanLog.AnalyzeScreenshot | app.py:86-114 | no image: 400 "No image uploaded" and the log is unchanged; OCR failure: 500 with Medium, "OCR failed" and the message, log unchanged; otherwise the extracted text plus its text verdict, and exactly one Screenshot record naming the file with the returned level |
| ScanHistory.ScanLog.AnalyzeWebsite | app.py:116-129 | returns the website verdict of the fetch outcome and appends exactly one Website record holding the raw URL and the returned level, also when the fetch failed |
| ScanHistory.ScanLog.GetHistory | app.py:131-133 | returns the whole log in insertion order |
| ScanHistory.ScanLog.GetStats | app.py:135-141 | the result has exactly the keys Low, Medium and High; each maps to the number of entries with that level (0 when there are none); on a valid log the three add up to its length |

## Left out

- Lower: lowers ASCII letters only. Python's `str.lower()` also lowers letters outside ASCII and can change a string's length; the Unicode tables are library behaviour. This can change a verdict, because some non-ASCII letters lower to an ASCII keyword letter: U+212A KELVIN SIGN lowers to `k` in Python, so a body "BAN\u212A" is High in the source but Low in the model.
- Flask routing, `request.get_json(force=True)`, `jsonify`, CORS and HTTP framing are left out, except the status codes of the screenshot handler (400, 500, 200), which `ScreenshotResponse.StatusCode` gives. Request fields are parameters. A body that is not JSON or not a JSON object is not modelled; the handler then fails before logging anything. A "text" field that is not a string is not modelled either; `.lower()` then raises before the append, so nothing is logged.
- AnalyzeWebsite: takes the "url" field as a string. A "url" that is not a string (say the number 5) is not modelled. In the source `requests.get` raises on it, the handler answers Medium with status 200, and it logs a Website record whose content is that raw JSON value.
- Opening the image and running Tesseract are foreign calls. Their outcome is the `ocr` field of `ImageUpload`.
- `requests.get(url, timeout=5)` is network I/O with a timeout. Its outcome is the `fetch` parameter. `Ok` stands for any response, including 4xx and 5xx responses. `requests` raises on transport errors and on URLs it cannot use, including the empty default, but not on HTTP error statuses. The link between the URL and that outcome is not modelled.
- `datetime.now().isoformat()` is a clock read. It is the `now` parameter.
- The Tesseract path setup, the `PORT` setting and `app.run` are environment and OS setup.
- `serve_frontend` serves static files from the filesystem.
- Concurrent requests sharing `scan_history` are out of scope; the model is sequential.
- `frontend/script.js` is browser UI code (DOM, `fetch`, alerts, timers).
