# Scraper_sc decision rules in Dafny

Three Python scripts gather single-cell RNA-seq papers and turn them into metadata
manifests:

- `get_pdf_from_doi_using_playwright.py` drives a browser to each DOI landing page.
  It dismisses a cookie banner, then tries three tiers in order: click download
  links in priority order, fetch the first PDF URL seen in the page's own traffic,
  and finally capture a screenshot for manual follow-up.
- `get_pdf_from_doi.py` does the same over plain HTTP. It asks Unpaywall for an
  open-access PDF URL, falls back to the first PDF-looking link on the publisher
  page, downloads with a content-type check, and pauses between DOIs.
- `extract_metadata_to_manifest.py` reads each PDF and asks a language model,
  sheet by sheet, for the fields of a spreadsheet template. It normalises each
  reply into rows, writes the workbook, fits the column widths and makes sure a
  sheet is visible.

The model keeps the scripts' own decisions and turns every external effect into a
parameter:

- Browser probes, clicks, downloads and screenshots are outcomes in a `BrowserWorld`.
- HTTP replies are `LookupReply`, `PageReply` and `FetchReply` values.
- `urljoin`, `json.loads` and the language model are function parameters.
- Files on disk are a `FileStore` map.

Files:

- `wrappers.dfy`: `Option` and `Result`.
- `text.dfy`: Python string operations the scripts rely on (`in`, ASCII `lower`,
  `strip`, `replace`, `str(int)`, `repr(str)`).
- `json.dfy`: decoded JSON values with Python truthiness, `dict.get` and key order.
- `browser_retriever.dfy`, `http_retriever.dfy`, `manifest.dfy`: one module per script.

Behaviour of the code worth knowing before reading the model:

- The browser script probes download affordances on the main page only, not in its frames.
- The browser script has no delay between DOIs.
- The HTTP script skips its delay after an Unpaywall download succeeds.
- A reply that decodes to neither a list nor an object stops the manifest script.

## Model

| member | source | states |
|---|---|---|
| BrowserRetriever.MakeSafeFilename | get_pdf_from_doi_using_playwright.py:92-94 | The result has the input's length and only `[\w\-_.]` characters; safe characters stay in place and every other character becomes `_`. |
| BrowserRetriever.SafeNameUnchanged | get_pdf_from_doi_using_playwright.py:92-94 | A name made only of safe characters comes back unchanged. |
| BrowserRetriever.MakeSafeFilenameIdempotent | get_pdf_from_doi_using_playwright.py:92-94 | Sanitising an already sanitised name changes nothing. |
| BrowserRetriever.AcceptCookieBanner | get_pdf_from_doi_using_playwright.py:97-113 | At most one consent control is clicked. It is the first successful click scanning the page, then each frame, and each selector in list order; if there is none, no probe anywhere succeeded. |
| BrowserRetriever.PdfDocumentUrlsAppend | get_pdf_from_doi_using_playwright.py:144-150 | Recording over two consecutive stretches of traffic is the concatenation of the two, so recorded URLs keep observation order. |
| BrowserRetriever.PdfDocumentUrlsMembers | get_pdf_from_doi_using_playwright.py:144-147 | A URL is recorded if and only if some request with that URL is a `document` whose URL contains ".pdf". |
| BrowserRetriever.PdfDocumentUrlsHead | get_pdf_from_doi_using_playwright.py:188-189 | The first recorded URL is that of the first qualifying request observed. |
| BrowserRetriever.RetrievalAttempt.constructor | get_pdf_from_doi_using_playwright.py:141-167 | An attempt starts with an empty intercepted list, the flag down and no artifact. |
| BrowserRetriever.RetrievalAttempt.LogPdfRequest | get_pdf_from_doi_using_playwright.py:144-148 | The handler appends the URL only for a qualifying request, and every request is continued. |
| BrowserRetriever.RetrievalAttempt.ObserveTraffic | get_pdf_from_doi_using_playwright.py:143-150 | After a stream of requests, the list has grown by exactly the qualifying URLs in order, and one request per item was continued. |
| BrowserRetriever.RetrievalAttempt.ClickPdfSelectors | get_pdf_from_doi_using_playwright.py:167-183 | Selectors are tried in priority order and the loop stops at the first that downloads. The flag is up exactly when one did; the PDF is then saved at `pdfs/<safe>.pdf` from that selector; otherwise all selectors were tried. |
| BrowserRetriever.RetrievalAttempt.FetchInterceptedUrl | get_pdf_from_doi_using_playwright.py:188-200 | The tier acts only with the flag down and a non-empty list, and only on the first URL. Its own navigation is recorded too. A failed fetch leaves no PDF. |
| BrowserRetriever.RetrievalAttempt.TakeScreenshot | get_pdf_from_doi_using_playwright.py:205-213 | A screenshot at `screenshots/<safe>.png` exists exactly when no PDF was saved and the capture worked. |
| BrowserRetriever.DownloadPdfWithPlaywright | get_pdf_from_doi_using_playwright.py:120-214 | A page that fails to load leaves no artifact; otherwise the cookie click is the first in scan order. Never both a PDF and a screenshot. The first selector that downloads wins. The intercepted URL is tried only after every selector failed, and only the first recorded one. A screenshot is taken exactly when no PDF was saved and the capture worked. Both success paths save to `pdfs/<safe>.pdf`. |
| BrowserRetriever.RetrieveAll | get_pdf_from_doi_using_playwright.py:220-222 | Every DOI, in order, gets its own report with all the guarantees of `DownloadPdfWithPlaywright`, whatever earlier DOIs did. |
| HttpRetriever.UnpaywallPdfUrl | get_pdf_from_doi.py:34-45 | A URL is returned only from a 200 answer whose `best_oa_location.url_for_pdf` is present and truthy. Whenever that holds, that value is returned; otherwise the result is `None`, and errors give `None`. |
| HttpRetriever.FirstPdfLink | get_pdf_from_doi.py:55-60 | The index is the first anchor in document order whose href contains "pdf" or whose text contains "download", both compared in lower case. `None` means no anchor qualifies. |
| HttpRetriever.PublisherPdfLink | get_pdf_from_doi.py:49-63 | A link exists if and only if the page loaded without an error status and some anchor qualifies. It is the first qualifying href joined to the final URL. |
| HttpRetriever.FileStore.Create | get_pdf_from_doi.py:72 | Opening for writing truncates the file and touches nothing else. |
| HttpRetriever.FileStore.Append | get_pdf_from_doi.py:73-74 | A write appends the chunk to that file only. |
| HttpRetriever.DownloadPdf | get_pdf_from_doi.py:67-81 | Returns True exactly when the status is 200, the Content-Type mentions `application/pdf` and the stream completes. Only such an accepted reply writes: the file then holds the streamed chunks in order. |
| HttpRetriever.Run | get_pdf_from_doi.py:85-104 | The publisher fallback runs exactly when the Unpaywall path did not end in a saved file, including a rejected download. The delay is skipped exactly after an Unpaywall success. The fallback's outcome is ignored. |
| HttpRetriever.ProcessDoi | get_pdf_from_doi.py:85-104 | One iteration does what `Run` records and leaves the disk as `FilesAfterDoi` describes. |
| HttpRetriever.FilesAfterDoiFrame | get_pdf_from_doi.py:87-100 | An iteration writes no file other than the DOI's own target path. |
| HttpRetriever.ProcessAll | get_pdf_from_doi.py:85-104 | Every DOI is processed in order, each with its own `Run`, and the disk is the effect of the iterations in sequence. |
| HttpRetriever.TargetPathOfDoi | get_pdf_from_doi.py:87 | A DOI `prefix/suffix` is saved at `pdfs/prefix_suffix.pdf`. |
| HttpRetriever.SameFileAsBrowser | get_pdf_from_doi.py:87 | For a DOI of safe characters and slashes, both scripts save to the same file. |
| HttpRetriever.DifferentFileForUnsafeChar | get_pdf_from_doi.py:87 | A DOI with any other unsafe character, such as `(`, is saved under different names by the two scripts. |
| Json.Lookup | get_pdf_from_doi.py:40-42 | `dict.get` is `None` exactly when the key is absent. Otherwise it is the value of the last member with that key. |
| Json.KeysSpec | extract_metadata_to_manifest.py:141 | An object's keys, in dict order, are distinct and are exactly the keys of its members. |
| Text.StripSpec | extract_metadata_to_manifest.py:97 | `strip()` returns a contiguous part of the string. Everything cut off is whitespace, and the result neither starts nor ends with whitespace. |
| Text.StrReprPlain | extract_metadata_to_manifest.py:79-80 | A field name with no single quote, backslash or control character appears in the prompt's field list as `'name'`. |
| Text.StrReprSingleQuote | extract_metadata_to_manifest.py:79-80 | A field name holding a single quote and no double quote appears between double quotes, unescaped. |
| Json.LastKeyIndex | extract_metadata_to_manifest.py:135 | The member `json.loads` keeps for a key is the last one with that key; `None` exactly when no member has it. |
| Json.ReprRepeatedKey | extract_metadata_to_manifest.py:164 | A cell holding an object with a repeated key is rendered with that key once and its last value. |
| Manifest.Conversation.constructor | extract_metadata_to_manifest.py:27-73 | A conversation starts with the system prompt and the user message carrying the paper text. |
| Manifest.Conversation.QueryForSheet | extract_metadata_to_manifest.py:77-99 | The history grows by exactly the sheet's prompt and then the reply, and earlier messages are unchanged. The reply is the stripped answer of the model to the history including the prompt. |
| Manifest.ProjectRowColumns | extract_metadata_to_manifest.py:143 | With distinct fields, a projected row gives a frame whose columns are exactly the fields. |
| Manifest.ProjectRowCells | extract_metadata_to_manifest.py:143 | A projected row holds the reply's value for each field, or "Not Provided" where the reply lacks it. Keys outside the fields are dropped. |
| Manifest.SheetFrameShape | extract_metadata_to_manifest.py:134-143 | An unparsable reply gives one row with every field "Not Provided". An object gives one row over exactly the fields. A list is taken verbatim as the rows, with columns in first-appearance order. Any other value is the error case, and only it. |
| Manifest.LongestIsMax | extract_metadata_to_manifest.py:164 | The longest cell length is at least every cell's length, and is attained by one of them. |
| Manifest.ColumnWidthFits | extract_metadata_to_manifest.py:163-166 | A column's width is at least the header length plus 2 and at least every cell's text length plus 2. It equals one of these. |
| Manifest.FittedWidthsAt | extract_metadata_to_manifest.py:163-166 | After the loop, column `k` (1-based) has the `k`-th width and no other entry changed. |
| Manifest.SetWidths | extract_metadata_to_manifest.py:163-166 | Column `k` (1-based) ends with the `k`-th width, and every other entry of the sheet's widths is kept. |
| Manifest.FrameOf | extract_metadata_to_manifest.py:156 | A sheet has a generated frame exactly when some generated entry has its name. |
| Manifest.IndexOf | extract_metadata_to_manifest.py:157-160 | The position found holds the name, and `None` means the workbook lacks the sheet. |
| Manifest.Workbook.constructor | extract_metadata_to_manifest.py:154 | A loaded workbook has its sheet names, their states and no widths set. |
| Manifest.Workbook.FitColumns | extract_metadata_to_manifest.py:163-166 | Only that sheet's widths change, and they become the fitted widths of its frame. |
| Manifest.Workbook.ShowSheet | extract_metadata_to_manifest.py:157-166 | The sheet of that name, if present, becomes visible and gets its columns fitted. Every other sheet is left as it was. |
| Manifest.Workbook.ShowGenerated | extract_metadata_to_manifest.py:156-166 | Every workbook sheet with a generated frame ends visible with that frame's widths. Sheets without one are unchanged, and generated sheets the workbook lacks are skipped. |
| Manifest.Workbook.EnsureVisibleSheet | extract_metadata_to_manifest.py:169-170 | Afterwards some sheet is visible. With one visible already nothing changes; otherwise only the first sheet is made visible. |
| Manifest.FieldsOf | extract_metadata_to_manifest.py:125-129 | A sheet's fields come from a template sheet of that name. `None` means the template has no such sheet. |
| Manifest.PresentSheetsMembers | extract_metadata_to_manifest.py:124-126 | The sheets kept are exactly the wanted ones that the template has, in the wanted order and without repeats. |
| Manifest.TranscriptLength | extract_metadata_to_manifest.py:82-98 | A transcript has exactly two messages per generated sheet after its start. |
| Manifest.TranscriptSnoc | extract_metadata_to_manifest.py:82-98 | A transcript followed by one more prompt-and-reply exchange is a transcript of one more sheet. |
| Manifest.ExtractStops | extract_metadata_to_manifest.py:140-143 | Once a reply cannot be used, the later sheets change nothing. |
| Manifest.ExtractKeepsHistory | extract_metadata_to_manifest.py:124-132 | The sheet loop only appends to the conversation. |
| Manifest.ExtractGeneratesPresentSheets | extract_metadata_to_manifest.py:124-146 | On success, the generated sheets are exactly the listed sheets that the template has, in list order. |
| Manifest.ExtractTranscript | extract_metadata_to_manifest.py:124-146 | On success, each generated sheet has its own exchange in the history, in order. The exchange is the sheet's prompt followed by the model's stripped answer, and that answer normalises to the sheet's frame. |
| Manifest.ExtractFailure | extract_metadata_to_manifest.py:140-143 | A failure is an unusable reply for a sheet that is in the list and in the template. |
| Manifest.ExtractNothing | extract_metadata_to_manifest.py:124-126 | When the template has none of the listed sheets, nothing is asked and nothing is generated. |
| Manifest.ExtractSheets | extract_metadata_to_manifest.py:123-149 | The loop on the conversation object leaves the history and the result given by the sheet-loop specification and the empty-result check. |
| Manifest.SheetsToProcessDistinct | extract_metadata_to_manifest.py:114 | The seven sheet names are distinct. |
| Manifest.FrameOfOwn | extract_metadata_to_manifest.py:156-160 | With distinct names, the frame found for a generated sheet is its own. |
| Manifest.FinishWorkbook | extract_metadata_to_manifest.py:154-170 | On the workbook written from the generated sheets, every sheet ends visible and every column gets its fitted width. |
| Manifest.ProcessPdf | extract_metadata_to_manifest.py:110-172 | On success the sheets are the template's among the seven, in order. The history is the two base messages plus one prompt-and-reply per sheet, each producing that sheet's frame. Every sheet is visible and every column has its fitted width. "No sheets processed" happens if and only if the template has none of the seven; an unusable reply names a sheet the template has. |
| Manifest.OutputPathOfPdf | extract_metadata_to_manifest.py:108 | `<stem>.pdf` gets the manifest `completed_manifests/<stem>.xlsx`. |
| Manifest.Jobs | extract_metadata_to_manifest.py:104-108 | Every regular file whose name does not contain ".DS_Store" becomes a job with its output path, and nothing else does. |
| Manifest.SelectJobs | extract_metadata_to_manifest.py:104-108 | The directory loop with its two skips yields exactly `Jobs` of the entries. |

## Left out

- Network, browser and language-model calls are not executed. Their outcomes are parameters: `BrowserWorld`, `LookupReply`, `PageReply`, `FetchReply` and `llm`. Timeouts of the browser and HTTP calls are one more failed outcome.
- The browser's navigation and load event hooks that retry the cookie banner are left out, because their timing is browser-driven. Only the explicit call after the page loads is modelled, and its click does not alter later outcomes.
- HTML parsing, `urljoin`, `json.loads`, PyMuPDF text extraction and the Unpaywall query URL with its quoting are left out as library calls. The page becomes `(href, text)` anchors; the others are parameters or plain inputs.
- `\w` is taken over ASCII letters, digits and `_`; Python's Unicode word characters are not modelled.
- `Text.Lower` is ASCII-only. This is exact for the two lower-case tests, "pdf" and "download".
- JSON numbers are integers only, because floating point is not modelled.
- Text.StrRepr: escapes backslash, the chosen quote and ASCII control characters as `repr()` does, but keeps non-ASCII characters that Python counts as non-printable (such as U+00A0) instead of escaping them, because Unicode printability tables are not modelled.
- Manifest.Conversation.QueryForSheet: the model always answers (`llm` returns a string). A failed API call, such as a timeout or a rejected key, or a reply whose content is `None`, raises uncaught in the script and aborts the run. That abort is not modelled.
- Manifest.ProcessPdf: for the same reason it never reports that abort. Its "no sheets processed" error arises only when the template has none of the seven sheets.
- Manifest.SheetFrame: pandas' dtype coercion of cells is not modelled. List items that are not objects add no columns, where pandas would build a frame of a different shape.
- A reply that decodes to neither a list nor an object crashes the script on `.get`. The model returns `UnsupportedReply` instead.
- Manifest.SheetFrameShape requires distinct template fields. pandas renames repeated header names, so the fields it reads are always distinct.
- pandas/openpyxl reading and writing are not modelled. The workbook written holds exactly the generated sheets, all visible, and `FinishWorkbook` proves the skip and the repair are no-ops on it.
- The template file is an input sequence of `TemplateSheet`s. The long system prompt is a parameter.
- Printing, `sleep`, `os.makedirs`, `shutil.move` to `done/` and saving files are left out as system I/O. `Run` records whether the delay happens.
- The static DOI lists and selector strings are data. They appear only as constants and their order.
