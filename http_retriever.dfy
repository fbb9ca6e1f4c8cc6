/** The HTTP-only retriever (get_pdf_from_doi.py): per DOI, ask Unpaywall for an
    open-access PDF URL and download it; failing that, scrape the DOI landing page
    for the first PDF-looking link and download that; then pause politely. Every
    HTTP exchange is an oracle reply; `urljoin` is a function parameter; the disk
    is a `FileStore` whose files the downloads (re)write. */
module HttpRetriever {
  import opened Wrappers
  import opened Text
  import opened Json
  import BrowserRetriever

  const OutputDir := "pdfs"

  // ---------------------------------------------------------------------------
  //  Step 1: Unpaywall
  // ---------------------------------------------------------------------------

  /** The Unpaywall exchange: the request raised, or a status and the body as
      `r.json()` decodes it (`None` when decoding raises). */
  datatype LookupReply =
    | LookupRaised
    | LookupAnswer(status: int, body: Option<Json>)

  /** `value.get(key)` where `value` must be a decoded object; `None` for an
      absent key and for a value that has no `.get`. */
  function Member(value: Json, key: string): Option<Json>
  {
    if value.JObj? then Lookup(value.members, key) else None
  }

  /** `get_pdf_url_unpaywall`: `best_oa_location.url_for_pdf` from a 200 answer
      when both are present and truthy; `None` otherwise, errors included. */
  function UnpaywallPdfUrl(reply: LookupReply): (url: Option<Json>)
    ensures url.Some? ==>
              reply.LookupAnswer? && reply.status == 200 && reply.body.Some? &&
              Member(reply.body.value, "best_oa_location").Some? &&
              url == Member(Member(reply.body.value, "best_oa_location").value, "url_for_pdf") &&
              Truthy(url.value)
    ensures reply.LookupAnswer? && reply.status == 200 && reply.body.Some? &&
            Member(reply.body.value, "best_oa_location").Some? &&
            Truthy(Member(reply.body.value, "best_oa_location").value) &&
            Member(Member(reply.body.value, "best_oa_location").value, "url_for_pdf").Some? &&
            Truthy(Member(Member(reply.body.value, "best_oa_location").value, "url_for_pdf").value)
            ==> url == Member(Member(reply.body.value, "best_oa_location").value, "url_for_pdf")
  {
    match reply
    case LookupRaised => None
    case LookupAnswer(status, body) =>
      if status != 200 || body.None? || !body.value.JObj? then None
      else
        match Lookup(body.value.members, "best_oa_location")
        case None => None
        case Some(oa) =>
          if !Truthy(oa) || !oa.JObj? then None
          else
            match Lookup(oa.members, "url_for_pdf")
            case None => None
            case Some(u) => if Truthy(u) then Some(u) else None
  }

  // ---------------------------------------------------------------------------
  //  Step 2: the publisher's landing page
  // ---------------------------------------------------------------------------

  /** An `<a>` element: its `href` attribute if any, and `get_text(strip=True)`. */
  datatype Anchor = Anchor(href: Option<string>, text: string)

  /** The landing-page exchange: the request raised, or the status, the URL after
      redirects and the anchors in document order. */
  datatype PageReply =
    | PageRaised
    | PageAnswer(status: int, finalUrl: string, anchors: seq<Anchor>)

  /** The test applied to each anchor that has an `href`. */
  predicate IsPdfLink(a: Anchor)
  {
    a.href.Some? && (Contains(Lower(a.href.value), "pdf") || Contains(Lower(a.text), "download"))
  }

  /** Index of the first anchor, in document order, that passes the test. */
  function FirstPdfLink(anchors: seq<Anchor>): (k: Option<nat>)
    ensures k.Some? ==> k.value < |anchors| && IsPdfLink(anchors[k.value]) &&
                        forall j :: 0 <= j < k.value ==> !IsPdfLink(anchors[j])
    ensures k.None? ==> forall j :: 0 <= j < |anchors| ==> !IsPdfLink(anchors[j])
    decreases |anchors|
  {
    if anchors == [] then None
    else if IsPdfLink(anchors[0]) then Some(0)
    else
      match FirstPdfLink(anchors[1..])
      case None => None
      case Some(k) => Some(k + 1)
  }

  /** `raise_for_status` raises for client and server errors. */
  predicate RaisesForStatus(status: int)
  {
    400 <= status < 600
  }

  /** `get_pdf_link_from_doi_page`: the first matching anchor's `href`, joined to the
      final page URL; `None` when the fetch fails or no anchor matches. */
  function PublisherPdfLink(page: PageReply, join: (string, string) -> string): (link: Option<string>)
    ensures link.Some? <==>
              page.PageAnswer? && !RaisesForStatus(page.status) &&
              exists j :: 0 <= j < |page.anchors| && IsPdfLink(page.anchors[j])
    ensures link.Some? ==>
              exists k :: 0 <= k < |page.anchors| && IsPdfLink(page.anchors[k]) &&
                          (forall j :: 0 <= j < k ==> !IsPdfLink(page.anchors[j])) &&
                          link.value == join(page.finalUrl, page.anchors[k].href.value)
  {
    if page.PageRaised? || RaisesForStatus(page.status) then None
    else
      match FirstPdfLink(page.anchors)
      case None => None
      case Some(k) => Some(join(page.finalUrl, page.anchors[k].href.value))
  }

  // ---------------------------------------------------------------------------
  //  Step 3: downloading
  // ---------------------------------------------------------------------------

  /** A download exchange: the request raised, or the status, the Content-Type
      header, the body chunks streamed and whether the stream then broke. */
  datatype FetchReply =
    | FetchRaised
    | FetchAnswer(status: int, contentType: Option<string>, chunks: seq<seq<bv8>>, broken: bool)

  /** `download_pdf`'s acceptance test: status 200 and a Content-Type that mentions
      `application/pdf` (a missing header reads as ""). */
  predicate IsPdfResponse(status: int, contentType: Option<string>)
  {
    status == 200 && Contains(if contentType.Some? then contentType.value else "", "application/pdf")
  }

  predicate Accepted(reply: FetchReply)
  {
    reply.FetchAnswer? && IsPdfResponse(reply.status, reply.contentType)
  }

  function Concat(chunks: seq<seq<bv8>>): (bytes: seq<bv8>)
    decreases |chunks|
  {
    if chunks == [] then [] else Concat(chunks[..|chunks| - 1]) + chunks[|chunks| - 1]
  }

  /** The disk after `download_pdf`: an accepted reply truncates `path` and leaves in
      it every chunk streamed; any other reply leaves the disk as it was. */
  function AfterDownload(files: map<string, seq<bv8>>, reply: FetchReply, path: string): map<string, seq<bv8>>
  {
    if Accepted(reply) then files[path := Concat(reply.chunks)] else files
  }

  /** The files written under the output directories. */
  class FileStore {
    var files: map<string, seq<bv8>>

    constructor (files: map<string, seq<bv8>>)
      ensures this.files == files
    {
      this.files := files;
    }

    /** `open(path, "wb")`: create or truncate. */
    method Create(path: string)
      modifies this
      ensures files == old(files)[path := []]
    {
      files := files[path := []];
    }

    /** `f.write(chunk)` on an open file. */
    method Append(path: string, chunk: seq<bv8>)
      requires path in files
      modifies this
      ensures files == old(files)[path := old(files)[path] + chunk]
    {
      files := files[path := files[path] + chunk];
    }
  }

  /** `download_pdf(url, path)`, given the reply to `url`: True exactly when the reply
      is accepted and streams to its end; only an accepted reply writes. */
  method DownloadPdf(fs: FileStore, reply: FetchReply, path: string) returns (ok: bool)
    modifies fs
    ensures ok <==> Accepted(reply) && !reply.broken
    ensures fs.files == AfterDownload(old(fs.files), reply, path)
  {
    ok := false;
    if reply.FetchAnswer? && IsPdfResponse(reply.status, reply.contentType) {
      fs.Create(path);
      var i := 0;
      while i < |reply.chunks|
        invariant i <= |reply.chunks|
        invariant fs.files == old(fs.files)[path := Concat(reply.chunks[..i])]
      {
        fs.Append(path, reply.chunks[i]);
        assert reply.chunks[..i + 1][..i] == reply.chunks[..i];
        i := i + 1;
      }
      assert reply.chunks[..i] == reply.chunks;
      ok := !reply.broken;
    }
  }

  // ---------------------------------------------------------------------------
  //  The per-DOI loop
  // ---------------------------------------------------------------------------

  /** `os.path.join("pdfs", doi.replace('/', '_') + ".pdf")`. */
  function TargetPath(doi: string): string
  {
    OutputDir + "/" + ReplaceChar(doi, '/', '_') + ".pdf"
  }

  /** The four exchanges one DOI can cause. */
  datatype DoiWorld = DoiWorld(
    lookup: LookupReply,
    lookupFetch: FetchReply,      // the reply to the Unpaywall PDF URL
    page: PageReply,
    publisherFetch: FetchReply)   // the reply to the publisher link

  /** What one DOI's iteration did. */
  datatype DoiRun = DoiRun(
    lookupUrl: Option<Json>,
    lookupSaved: bool,
    triedPublisher: bool,
    publisherLink: Option<string>,
    slept: bool)

  /** The Unpaywall URL leads to a complete, accepted download. A URL that is not a
      string makes `requests` raise before any exchange. */
  predicate LookupSucceeds(w: DoiWorld)
  {
    var url := UnpaywallPdfUrl(w.lookup);
    url.Some? && url.value.JStr? && Accepted(w.lookupFetch) && !w.lookupFetch.broken
  }

  /** The record of one iteration of the main loop. */
  function Run(w: DoiWorld, join: (string, string) -> string): (r: DoiRun)
    ensures r.lookupUrl == UnpaywallPdfUrl(w.lookup)
    ensures r.lookupSaved <==> LookupSucceeds(w)
    // the fallback runs whenever the Unpaywall path did not end in a saved file,
    // also when a URL was found but its download was rejected
    ensures r.triedPublisher <==> !r.lookupSaved
    ensures r.publisherLink == if r.triedPublisher then PublisherPdfLink(w.page, join) else None
    // only a saved Unpaywall download skips the delay; the fallback's outcome is ignored
    ensures r.slept <==> !r.lookupSaved
  {
    var url := UnpaywallPdfUrl(w.lookup);
    if url.Some? && url.value.JStr? && Accepted(w.lookupFetch) && !w.lookupFetch.broken then
      DoiRun(url, true, false, None, false)
    else
      DoiRun(url, false, true, PublisherPdfLink(w.page, join), true)
  }

  /** The disk after one iteration: the Unpaywall download (when its URL is a
      string), then, unless that succeeded, the publisher download. */
  function FilesAfterDoi(files: map<string, seq<bv8>>, doi: string, w: DoiWorld,
                         join: (string, string) -> string): map<string, seq<bv8>>
  {
    var path := TargetPath(doi);
    var url := UnpaywallPdfUrl(w.lookup);
    var afterLookup := if url.Some? && url.value.JStr? then AfterDownload(files, w.lookupFetch, path) else files;
    if LookupSucceeds(w) || PublisherPdfLink(w.page, join).None? then afterLookup
    else AfterDownload(afterLookup, w.publisherFetch, path)
  }

  /** One iteration writes nothing but the DOI's own target file, and writes it
      only with an accepted reply's bytes. */
  lemma FilesAfterDoiFrame(files: map<string, seq<bv8>>, doi: string, w: DoiWorld,
                           join: (string, string) -> string, p: string)
    requires p != TargetPath(doi)
    ensures p in FilesAfterDoi(files, doi, w, join) <==> p in files
    ensures p in files ==> FilesAfterDoi(files, doi, w, join)[p] == files[p]
  {
  }

  /** One iteration of the main loop. */
  method ProcessDoi(fs: FileStore, doi: string, w: DoiWorld, join: (string, string) -> string)
    returns (run: DoiRun)
    modifies fs
    ensures run == Run(w, join)
    ensures fs.files == FilesAfterDoi(old(fs.files), doi, w, join)
  {
    var filename := TargetPath(doi);
    var url := UnpaywallPdfUrl(w.lookup);
    if url.Some? {
      var saved := false;
      if url.value.JStr? {
        saved := DownloadPdf(fs, w.lookupFetch, filename);
      }
      if saved {
        return DoiRun(url, true, false, None, false);   // `continue`: no delay
      }
    }
    var link := PublisherPdfLink(w.page, join);
    if link.Some? {
      var ignored := DownloadPdf(fs, w.publisherFetch, filename);
    }
    return DoiRun(url, false, true, link, true);      // `sleep(1)`
  }

  function FilesAfterAll(files: map<string, seq<bv8>>, dois: seq<string>, worlds: seq<DoiWorld>,
                         join: (string, string) -> string): map<string, seq<bv8>>
    requires |worlds| == |dois|
    decreases |dois|
  {
    if dois == [] then files
    else
      var n := |dois| - 1;
      FilesAfterDoi(FilesAfterAll(files, dois[..n], worlds[..n], join), dois[n], worlds[n], join)
  }

  /** The script's main loop over the DOI list. */
  method ProcessAll(fs: FileStore, dois: seq<string>, worlds: seq<DoiWorld>, join: (string, string) -> string)
    returns (runs: seq<DoiRun>)
    requires |worlds| == |dois|
    modifies fs
    ensures |runs| == |dois|
    ensures forall i :: 0 <= i < |dois| ==> runs[i] == Run(worlds[i], join)
    ensures fs.files == FilesAfterAll(old(fs.files), dois, worlds, join)
  {
    runs := [];
    var i := 0;
    while i < |dois|
      invariant i <= |dois| && |runs| == i
      invariant forall j :: 0 <= j < i ==> runs[j] == Run(worlds[j], join)
      invariant fs.files == FilesAfterAll(old(fs.files), dois[..i], worlds[..i], join)
    {
      var run := ProcessDoi(fs, dois[i], worlds[i], join);
      runs := runs + [run];
      assert dois[..i + 1][..i] == dois[..i] && worlds[..i + 1][..i] == worlds[..i];
      i := i + 1;
    }
    assert dois[..i] == dois && worlds[..i] == worlds;
  }

  // ---------------------------------------------------------------------------
  //  The output file name, compared with the browser retriever's
  // ---------------------------------------------------------------------------

  /** A DOI with a single slash, such as "10.1186/s13059-023-02908-x", is saved
      under its prefix and suffix joined by an underscore. */
  lemma TargetPathOfDoi(doi: string, p: nat)
    requires p < |doi| && doi[p] == '/'
    requires forall i :: 0 <= i < |doi| && i != p ==> doi[i] != '/'
    ensures TargetPath(doi) == OutputDir + "/" + doi[..p] + "_" + doi[p + 1..] + ".pdf"
  {
    assert ReplaceChar(doi, '/', '_') == doi[..p] + "_" + doi[p + 1..];
  }

  /** For a DOI made of safe characters and slashes, both scripts save to the
      same file. */
  lemma SameFileAsBrowser(doi: string)
    requires forall i :: 0 <= i < |doi| ==> BrowserRetriever.IsSafeChar(doi[i]) || doi[i] == '/'
    ensures TargetPath(doi) == BrowserRetriever.PdfPath(doi)
  {
    assert ReplaceChar(doi, '/', '_') == BrowserRetriever.MakeSafeFilename(doi);
  }

  /** DOIs may hold characters such as parentheses, which only the browser
      retriever replaces: the two scripts then save the same paper under
      different names. */
  lemma DifferentFileForUnsafeChar(doi: string, i: nat)
    requires i < |doi| && !BrowserRetriever.IsSafeChar(doi[i]) && doi[i] != '/' && doi[i] != '_'
    ensures TargetPath(doi) != BrowserRetriever.PdfPath(doi)
  {
    var replaced, sanitised := ReplaceChar(doi, '/', '_'), BrowserRetriever.MakeSafeFilename(doi);
    assert TargetPath(doi)[5 + i] == replaced[i] != sanitised[i] == BrowserRetriever.PdfPath(doi)[5 + i];
  }
}
