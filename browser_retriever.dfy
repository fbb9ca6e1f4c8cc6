/** The browser-automation retriever (get_pdf_from_doi_using_playwright.py): for
    one DOI it loads the landing page, dismisses a cookie banner, clicks download
    affordances in priority order, falls back to a PDF URL seen in the page's own
    traffic and, as a last resort, captures a screenshot for manual follow-up.
    The browser is an oracle: every probe, click, navigation and capture arrives
    as an outcome in a `BrowserWorld`. */
module BrowserRetriever {
  import opened Wrappers
  import opened Text

  const OutputDir := "pdfs"
  const ScreenshotDir := "screenshots"

  /** Elements whose click should start a PDF download, highest priority first. */
  const PdfSelectors: seq<string> := [
    "a:has-text(\"Download PDF\")",
    "a:has-text(\"PDF\")",
    "a:has-text(\"Full Text PDF\")",
    "a[href$=\".pdf\"]",
    "button:has-text(\"PDF\")",
    "a.pdf-link",
    "a#pdfLink",
    "button:has-text(\"Download\")",
    "a:has-text(\"Download\")",
    "button[aria-label*=\"PDF\"]",
    "span:has-text(\"Download PDF\")"
  ]

  /** Consent-manager "accept" controls, in the order they are tried. */
  const CookieAcceptSelectors: seq<string> := [
    "#onetrust-accept-btn-handler",
    "button:has-text(\"Accept\")",
    "button:has-text(\"Accept All\")",
    "button:has-text(\"Accept all\")",
    "button:has-text(\"Allow all\")",
    "button:has-text(\"Allow All\")",
    "button:has-text(\"Allow cookies\")",
    "button:has-text(\"Accept Cookies\")",
    "button:has-text(\"I agree\")",
    "button:has-text(\"I Agree\")",
    "button#accept-cookies",
    "button.cookie-accept",
    "[data-track-action=\"download pdf\"]"
  ]

  // ---------------------------------------------------------------------------
  //  Filenames
  // ---------------------------------------------------------------------------

  /** The regular-expression class `\w`, on ASCII: letters, digits and `_`. */
  predicate IsWordChar(c: char)
  {
    'a' <= c <= 'z' || 'A' <= c <= 'Z' || '0' <= c <= '9' || c == '_'
  }

  /** The class `[\w\-_.]` that `make_safe_filename` keeps. */
  predicate IsSafeChar(c: char)
  {
    IsWordChar(c) || c == '-' || c == '.'
  }

  predicate IsSafe(s: string)
  {
    forall i :: 0 <= i < |s| ==> IsSafeChar(s[i])
  }

  /** `make_safe_filename`: every character outside `[\w\-_.]` becomes `_`. */
  function MakeSafeFilename(s: string): (r: string)
    ensures |r| == |s|
    ensures IsSafe(r)
    ensures forall i :: 0 <= i < |s| && IsSafeChar(s[i]) ==> r[i] == s[i]
    ensures forall i :: 0 <= i < |s| && !IsSafeChar(s[i]) ==> r[i] == '_'
    decreases |s|
  {
    if s == [] then []
    else [if IsSafeChar(s[0]) then s[0] else '_'] + MakeSafeFilename(s[1..])
  }

  /** A name made only of safe characters passes through unchanged. */
  lemma {:induction false} SafeNameUnchanged(s: string)
    requires IsSafe(s)
    ensures MakeSafeFilename(s) == s
    decreases |s|
  {
    if s != [] {
      SafeNameUnchanged(s[1..]);
    }
  }

  /** Sanitising twice is sanitising once. */
  lemma MakeSafeFilenameIdempotent(s: string)
    ensures MakeSafeFilename(MakeSafeFilename(s)) == MakeSafeFilename(s)
  {
    SafeNameUnchanged(MakeSafeFilename(s));
  }

  /** Where both success tiers save the DOI's PDF. */
  function PdfPath(doi: string): string
  {
    OutputDir + "/" + MakeSafeFilename(doi) + ".pdf"
  }

  /** Where the evidence screenshot of a DOI goes. */
  function ScreenshotPath(doi: string): string
  {
    ScreenshotDir + "/" + MakeSafeFilename(doi) + ".png"
  }

  // ---------------------------------------------------------------------------
  //  Cookie-banner dismissal
  // ---------------------------------------------------------------------------

  /** What probing one consent selector in one frame leads to. */
  datatype Probe =
    | Hidden       // not visible within its wait, or the probe raised
    | ClickFailed  // visible, but the click raised; the error is swallowed
    | Clicked      // visible and clicked: the banner is dismissed

  /** A frame (0 is the page itself, then `page.frames` in order) and a selector index. */
  datatype Pos = Pos(frame: nat, selector: nat)

  /** The scan order: frame by frame, and within a frame the selectors in list order. */
  predicate ScannedBefore(p: Pos, q: Pos)
  {
    p.frame < q.frame || (p.frame == q.frame && p.selector < q.selector)
  }

  /** `click` is the first successful click in scan order over `frames` frames, or
      `None` when no probe clicks. */
  ghost predicate IsFirstClick(frames: nat, probe: (nat, nat) -> Probe, click: Option<Pos>)
  {
    match click
    case Some(p) =>
      p.frame < frames && p.selector < |CookieAcceptSelectors| && probe(p.frame, p.selector) == Clicked &&
      forall f: nat, s: nat :: s < |CookieAcceptSelectors| && ScannedBefore(Pos(f, s), p) ==> probe(f, s) != Clicked
    case None =>
      forall f: nat, s: nat :: f < frames && s < |CookieAcceptSelectors| ==> probe(f, s) != Clicked
  }

  /** `_accept_cookie_banner`: scan `[page, *page.frames]` and, in each, the consent
      selectors; click the first visible one and stop. Failed probes and clicks are
      swallowed, so at most one click succeeds and nothing is raised. */
  method AcceptCookieBanner(frames: nat, probe: (nat, nat) -> Probe) returns (click: Option<Pos>)
    ensures IsFirstClick(frames, probe, click)
  {
    var f := 0;
    while f < frames
      invariant f <= frames
      invariant forall g: nat, s: nat :: g < f && s < |CookieAcceptSelectors| ==> probe(g, s) != Clicked
    {
      var s := 0;
      while s < |CookieAcceptSelectors|
        invariant s <= |CookieAcceptSelectors|
        invariant forall g: nat, t: nat :: g < f && t < |CookieAcceptSelectors| ==> probe(g, t) != Clicked
        invariant forall t: nat :: t < s ==> probe(f, t) != Clicked
      {
        if probe(f, s) == Clicked {
          return Some(Pos(f, s));
        }
        s := s + 1;
      }
      f := f + 1;
    }
    return None;
  }

  // ---------------------------------------------------------------------------
  //  Intercepted traffic
  // ---------------------------------------------------------------------------

  /** A request the browser context routes: its URL and Playwright resource type. */
  datatype Request = Request(url: string, resourceType: string)

  /** The test in `log_pdf_requests`. */
  predicate IsPdfDocument(r: Request)
  {
    Contains(r.url, ".pdf") && r.resourceType == "document"
  }

  /** The URLs `log_pdf_requests` records from a stream of requests, in order. */
  function PdfDocumentUrls(reqs: seq<Request>): (urls: seq<string>)
    ensures |urls| <= |reqs|
    decreases |reqs|
  {
    if reqs == [] then []
    else
      var last := reqs[|reqs| - 1];
      PdfDocumentUrls(reqs[..|reqs| - 1]) + (if IsPdfDocument(last) then [last.url] else [])
  }

  /** Recording distributes over consecutive stretches of traffic, so the recorded
      list keeps the order in which requests were observed. */
  lemma {:induction false} PdfDocumentUrlsAppend(a: seq<Request>, b: seq<Request>)
    ensures PdfDocumentUrls(a + b) == PdfDocumentUrls(a) + PdfDocumentUrls(b)
    decreases |b|
  {
    if b == [] {
      assert a + b == a;
    } else {
      var b' := b[..|b| - 1];
      assert (a + b)[..|a + b| - 1] == a + b';
      PdfDocumentUrlsAppend(a, b');
    }
  }

  /** Exactly the URLs of PDF document requests are recorded. */
  lemma {:induction false} PdfDocumentUrlsMembers(reqs: seq<Request>, u: string)
    ensures u in PdfDocumentUrls(reqs) <==>
            exists i :: 0 <= i < |reqs| && IsPdfDocument(reqs[i]) && reqs[i].url == u
    decreases |reqs|
  {
    if reqs != [] {
      var init := reqs[..|reqs| - 1];
      PdfDocumentUrlsMembers(init, u);
      assert forall i :: 0 <= i < |init| ==> init[i] == reqs[i];
    }
  }

  /** The head of the recorded list is the URL of the first PDF document request. */
  lemma {:induction false} PdfDocumentUrlsHead(reqs: seq<Request>, k: nat)
    requires k < |reqs| && IsPdfDocument(reqs[k])
    requires forall j :: 0 <= j < k ==> !IsPdfDocument(reqs[j])
    ensures PdfDocumentUrls(reqs) != [] && PdfDocumentUrls(reqs)[0] == reqs[k].url
  {
    var before, after := reqs[..k], reqs[k + 1..];
    assert reqs == before + [reqs[k]] + after;
    PdfDocumentUrlsAppend(before + [reqs[k]], after);
    PdfDocumentUrlsAppend(before, [reqs[k]]);
    assert [reqs[k]][..0] == [];
    if PdfDocumentUrls(before) != [] {
      PdfDocumentUrlsMembers(before, PdfDocumentUrls(before)[0]);
      assert false;
    }
  }

  // ---------------------------------------------------------------------------
  //  One retrieval attempt
  // ---------------------------------------------------------------------------

  /** What clicking one PDF selector leads to. */
  datatype ClickOutcome =
    | NotVisible  // not visible within its wait, or the probe raised
    | NoDownload  // clicked, but no download within the wait, or saving it raised
    | Downloaded  // the click produced a download, saved as the DOI's PDF

  /** Which tier saved the PDF. */
  datatype Source = ByClick(selector: nat) | ByInterceptedUrl(url: string)

  datatype Download = Download(path: string, source: Source)

  /** The per-DOI state of `download_pdf_with_playwright`: the intercepted URL list
      that the route handler appends to, the `download_success` flag, and the
      artifacts written. */
  class RetrievalAttempt {
    const doi: string
    var intercepted: seq<string>
    var continued: nat        // requests the route handler let through
    var selectorsTried: nat   // PDF selectors probed so far
    var downloadSuccess: bool
    var pdf: Option<Download>
    var screenshot: Option<string>

    /** The flag mirrors the saved PDF, a PDF and a screenshot never coexist, the
        artifacts sit at the DOI's paths, and every recorded URL mentions ".pdf". */
    ghost predicate Valid()
      reads this
    {
      (downloadSuccess <==> pdf.Some?) &&
      !(pdf.Some? && screenshot.Some?) &&
      (pdf.Some? ==> pdf.value.path == PdfPath(doi)) &&
      (screenshot.Some? ==> screenshot.value == ScreenshotPath(doi)) &&
      (forall i :: 0 <= i < |intercepted| ==> Contains(intercepted[i], ".pdf"))
    }

    constructor (doi: string)
      ensures Valid() && this.doi == doi
      ensures intercepted == [] && continued == 0 && selectorsTried == 0
      ensures !downloadSuccess && pdf == None && screenshot == None
    {
      this.doi := doi;
      intercepted := [];
      continued := 0;
      selectorsTried := 0;
      downloadSuccess := false;
      pdf := None;
      screenshot := None;
    }

    /** `log_pdf_requests`: record the URL of a PDF document request, and let every
        request continue. */
    method LogPdfRequest(req: Request)
      requires Valid()
      modifies this`intercepted, this`continued
      ensures Valid()
      ensures intercepted == old(intercepted) + PdfDocumentUrls([req])
      ensures continued == old(continued) + 1
    {
      assert [req][..0] == [];
      if Contains(req.url, ".pdf") && req.resourceType == "document" {
        intercepted := intercepted + [req.url];
      }
      continued := continued + 1;
    }

    /** The handler runs on every routed request, in the order they are issued. */
    method ObserveTraffic(reqs: seq<Request>)
      requires Valid()
      modifies this`intercepted, this`continued
      ensures Valid()
      ensures intercepted == old(intercepted) + PdfDocumentUrls(reqs)
      ensures continued == old(continued) + |reqs|
    {
      var i := 0;
      while i < |reqs|
        invariant i <= |reqs| && Valid()
        invariant intercepted == old(intercepted) + PdfDocumentUrls(reqs[..i])
        invariant continued == old(continued) + i
      {
        LogPdfRequest(reqs[i]);
        PdfDocumentUrlsAppend(reqs[..i], [reqs[i]]);
        assert reqs[..i] + [reqs[i]] == reqs[..i + 1];
        i := i + 1;
      }
      assert reqs[..i] == reqs;
    }

    /** Tier 1: probe the PDF selectors in priority order and stop at the first
        whose click yields a download, saved at the DOI's PDF path. */
    method ClickPdfSelectors(outcome: nat -> ClickOutcome)
      requires Valid() && pdf == None && screenshot == None
      modifies this`selectorsTried, this`downloadSuccess, this`pdf
      ensures Valid() && screenshot == None
      ensures 0 < selectorsTried <= |PdfSelectors|
      ensures forall k: nat :: k < selectorsTried - 1 ==> outcome(k) != Downloaded
      ensures downloadSuccess <==> outcome(selectorsTried - 1) == Downloaded
      ensures !downloadSuccess ==> selectorsTried == |PdfSelectors|
      ensures downloadSuccess ==> pdf == Some(Download(PdfPath(doi), ByClick(selectorsTried - 1)))
    {
      downloadSuccess := false;
      selectorsTried := 0;
      while selectorsTried < |PdfSelectors|
        invariant selectorsTried <= |PdfSelectors|
        invariant forall k: nat :: k < selectorsTried ==> outcome(k) != Downloaded
        invariant !downloadSuccess && pdf == None
      {
        var k := selectorsTried;
        selectorsTried := selectorsTried + 1;
        if outcome(k) == Downloaded {
          pdf := Some(Download(PdfPath(doi), ByClick(k)));
          downloadSuccess := true;
          break;
        }
      }
    }

    /** Tier 2: with no download yet and a non-empty list, navigate to the first
        recorded URL (that navigation is routed and recorded too) and save the
        download it triggers; a failure is only reported. */
    method FetchInterceptedUrl(fetchOk: bool)
      requires Valid() && screenshot == None
      modifies this`intercepted, this`continued, this`downloadSuccess, this`pdf
      ensures Valid() && screenshot == None
      ensures old(downloadSuccess) || old(intercepted) == [] ==>
                pdf == old(pdf) && intercepted == old(intercepted) && continued == old(continued)
      ensures !old(downloadSuccess) && old(intercepted) != [] ==>
                intercepted == old(intercepted) + [old(intercepted)[0]] &&
                continued == old(continued) + 1 &&
                pdf == (if fetchOk then Some(Download(PdfPath(doi), ByInterceptedUrl(old(intercepted)[0]))) else None)
    {
      if !downloadSuccess && intercepted != [] {
        var url := intercepted[0];
        LogPdfRequest(Request(url, "document"));
        if fetchOk {
          pdf := Some(Download(PdfPath(doi), ByInterceptedUrl(url)));
          downloadSuccess := true;
        }
      }
    }

    /** Tier 3: only when no PDF was saved, capture a full-page screenshot; a
        failed capture is printed and leaves nothing. */
    method TakeScreenshot(captureOk: bool)
      requires Valid() && screenshot == None
      modifies this`screenshot
      ensures Valid()
      ensures screenshot == if !downloadSuccess && captureOk then Some(ScreenshotPath(doi)) else None
    {
      if !downloadSuccess && captureOk {
        screenshot := Some(ScreenshotPath(doi));
      }
    }
  }

  // ---------------------------------------------------------------------------
  //  The routine and the batch
  // ---------------------------------------------------------------------------

  /** The browser, seen from one DOI's run. */
  datatype BrowserWorld = BrowserWorld(
    pageLoads: bool,                    // navigating to https://doi.org/<doi> succeeded
    traffic: seq<Request>,              // requests routed before tier 2 reads the list
    frames: nat,                        // length of [page, *page.frames]
    cookieProbe: (nat, nat) -> Probe,   // (frame, consent selector) -> outcome
    selectorOutcome: nat -> ClickOutcome,
    interceptedFetchOk: bool,           // navigating to the first recorded URL gave a download
    screenshotOk: bool)

  /** What one DOI's run produced. */
  datatype Report = Report(cookieClick: Option<Pos>, pdf: Option<Download>, screenshot: Option<string>)

  ghost predicate AnyDownload(outcome: nat -> ClickOutcome)
  {
    exists k: nat :: k < |PdfSelectors| && outcome(k) == Downloaded
  }

  ghost predicate IsFirstDownload(outcome: nat -> ClickOutcome, k: nat)
  {
    k < |PdfSelectors| && outcome(k) == Downloaded &&
    forall j: nat :: j < k ==> outcome(j) != Downloaded
  }

  /** The whole promise of one run of `download_pdf_with_playwright`. */
  ghost predicate ReportFor(doi: string, w: BrowserWorld, r: Report)
  {
    // a page that fails to load ends the run with no artifact
    (!w.pageLoads ==> r == Report(None, None, None)) &&
    (w.pageLoads ==> IsFirstClick(w.frames, w.cookieProbe, r.cookieClick)) &&
    // never both a PDF and a screenshot; both success paths share one file name
    !(r.pdf.Some? && r.screenshot.Some?) &&
    (r.pdf.Some? ==> r.pdf.value.path == PdfPath(doi)) &&
    (r.screenshot.Some? ==> r.screenshot.value == ScreenshotPath(doi)) &&
    // tier 1 wins with the first selector, in priority order, that downloads
    (w.pageLoads && AnyDownload(w.selectorOutcome) ==> r.pdf.Some? && r.pdf.value.source.ByClick?) &&
    (r.pdf.Some? && r.pdf.value.source.ByClick? ==> IsFirstDownload(w.selectorOutcome, r.pdf.value.source.selector)) &&
    // tier 2 runs only after tier 1 failed, and only with the first recorded URL
    (r.pdf.Some? && r.pdf.value.source.ByInterceptedUrl? ==>
       !AnyDownload(w.selectorOutcome) && w.interceptedFetchOk &&
       PdfDocumentUrls(w.traffic) != [] && r.pdf.value.source.url == PdfDocumentUrls(w.traffic)[0]) &&
    (w.pageLoads && !AnyDownload(w.selectorOutcome) && PdfDocumentUrls(w.traffic) != [] && w.interceptedFetchOk ==>
       r.pdf.Some?) &&
    // tier 3 is the only way to a screenshot
    (r.screenshot.Some? <==> w.pageLoads && r.pdf.None? && w.screenshotOk)
  }

  /** `download_pdf_with_playwright(doi)`: the tiers run in order on one attempt
      object, and its flag decides each later tier. */
  method DownloadPdfWithPlaywright(doi: string, w: BrowserWorld) returns (r: Report)
    ensures ReportFor(doi, w, r)
  {
    var attempt := new RetrievalAttempt(doi);
    if !w.pageLoads {
      return Report(None, None, None);
    }
    attempt.ObserveTraffic(w.traffic);
    var click := AcceptCookieBanner(w.frames, w.cookieProbe);
    attempt.ClickPdfSelectors(w.selectorOutcome);
    if attempt.downloadSuccess {
      assert IsFirstDownload(w.selectorOutcome, attempt.selectorsTried - 1);
    }
    attempt.FetchInterceptedUrl(w.interceptedFetchOk);
    attempt.TakeScreenshot(w.screenshotOk);
    r := Report(click, attempt.pdf, attempt.screenshot);
  }

  /** The script's main block: every DOI is processed, in order, whatever the
      earlier ones did. */
  method RetrieveAll(dois: seq<string>, worlds: seq<BrowserWorld>) returns (reports: seq<Report>)
    requires |worlds| == |dois|
    ensures |reports| == |dois|
    ensures forall i :: 0 <= i < |dois| ==> ReportFor(dois[i], worlds[i], reports[i])
  {
    reports := [];
    for i := 0 to |dois|
      invariant |reports| == i
      invariant forall j :: 0 <= j < i ==> ReportFor(dois[j], worlds[j], reports[j])
    {
      var r := DownloadPdfWithPlaywright(dois[i], worlds[i]);
      reports := reports + [r];
    }
  }
}
