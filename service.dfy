/**
 * The `/extract` endpoint: the URL gate, then fetch, block location, decoding
 * and extraction, each stage ending the request with its own failure. The
 * page fetch and the lenient decoder are not part of this model and come in
 * as functions.
 */
module Service {
  import opened Results
  import opened Values
  import opened Failures
  import opened Locator
  import opened Extractor

  const ShortLinkHost := "photos.app.goo.gl"
  const PhotosHost := "photos.google.com"

  /** What the shared HTTP client's GET of the share URL gives back. */
  datatype FetchOutcome =
    | Page(text: string)               // 2xx response body
    | RequestError(message: string)    // httpx.RequestError: transport failure or timeout
    | StatusError(code: int)           // non-2xx status, raised by raise_for_status

  /** What `demjson3.decode(raw, strict=False)` gives back. */
  datatype DecodeOutcome =
    | Decoded(tree: Value)
    | DecodeError(message: string)

  /** The gate of `extract_links`: a non-empty URL naming one of the two photo hosts. */
  predicate Accepted(url: string)
  {
    !(url == [] || (!Contains(url, ShortLinkHost) && !Contains(url, PhotosHost)))
  }

  /** A URL passes the gate exactly when one of the two host names occurs in it. */
  lemma AcceptedIff(url: string)
    ensures Accepted(url) <==>
      exists i :: OccursAt(url, ShortLinkHost, i) || OccursAt(url, PhotosHost, i)
  {
    ContainsIff(url, ShortLinkHost);
    ContainsIff(url, PhotosHost);
  }

  /** The stream entry as the response dict `{'label': ..., 'url': ...}`. */
  function StreamLinkJson(link: StreamLink): Value
  {
    Dict([Entry("label", Str(link.qualityLabel)), Entry("url", Str(link.url))])
  }

  /** The result dict in the key order of the source. */
  function ExtractionJson(e: Extraction): (r: Value)
    ensures r.Dict? && |r.entries| == 7 && Truthy(r)
    ensures forall k :: 0 <= k < 7 ==>
      r.entries[k].key == ["status", "host", "filecode", "poster", "streams", "download", "vtt"][k]
  {
    Dict([
      Entry("status", Bool(e.status)),
      Entry("host", Str(e.host)),
      Entry("filecode", e.filecode),
      Entry("poster", Str(e.poster)),
      Entry("streams", List(seq(|e.streams|, k requires 0 <= k < |e.streams| => StreamLinkJson(e.streams[k])))),
      Entry("download", e.download),
      Entry("vtt", e.vtt)])
  }

  /**
   * One request to `/extract?URL=url`. A rejected URL is answered before
   * `fetch` is consulted; every later failure stops the request at its stage.
   */
  function Handle(url: string, fetch: string -> FetchOutcome, decode: string -> DecodeOutcome): (r: Result<Value, Failure>)
    ensures r == Err(InvalidUrl) <==> !Accepted(url)
    ensures r.Err? ==> (StatusCode(r.error) == 400 <==> !Accepted(url))
    ensures r != Err(NoResult)
    ensures Accepted(url) && fetch(url).RequestError? ==> r == Err(FetchFailed(fetch(url).message))
    ensures Accepted(url) && fetch(url).StatusError? ==> r == Err(BadStatus(fetch(url).code))
    ensures Accepted(url) && fetch(url).Page? && Locate(fetch(url).text).None? ==> r == Err(DataBlockMissing)
    ensures Accepted(url) && fetch(url).Page? && Locate(fetch(url).text).Some? ==>
      var outcome := decode(Locate(fetch(url).text).value);
      && (outcome.DecodeError? ==> r == Err(DecodeFailed(outcome.message)))
      && (outcome.Decoded? && Extract(outcome.tree).Err? ==> r == Err(Extract(outcome.tree).error))
      && (outcome.Decoded? && Extract(outcome.tree).Ok? ==> r == Ok(ExtractionJson(Extract(outcome.tree).value)))
  {
    if !Accepted(url) then Err(InvalidUrl)
    else
      match fetch(url)
      case RequestError(message) => Err(FetchFailed(message))
      case StatusError(code) => Err(BadStatus(code))
      case Page(text) =>
        match Locate(text)
        case None => Err(DataBlockMissing)
        case Some(raw) =>
          match decode(raw)
          case DecodeError(message) => Err(DecodeFailed(message))
          case Decoded(tree) =>
            match Extract(tree)
            case Err(failure) => Err(failure)
            case Ok(extraction) =>
              var body := ExtractionJson(extraction);
              if !Truthy(body) then Err(NoResult) else Ok(body)
  }

  /** The HTTP status a failure is answered with; uncaught exceptions become a server error. */
  function StatusCode(f: Failure): (code: int)
    ensures code == 400 <==> Detail(f) == Some("Invalid or missing Google Photos URL")
    ensures code == 400 || code == 500
  {
    if f == InvalidUrl then 400 else (OnlyInvalidUrlIsBadRequest(f); 500)
  }

  /** No failure other than the rejected URL carries the 400 answer's detail. */
  lemma OnlyInvalidUrlIsBadRequest(f: Failure)
    requires f != InvalidUrl
    ensures Detail(f) != Some("Invalid or missing Google Photos URL")
  {
    var bad := "Invalid or missing Google Photos URL";
    assert bad[0] == 'I';
    match f
    case FetchFailed(reason) =>
      assert ("Could not fetch URL: " + reason)[0] == 'C';
    case DecodeFailed(reason) =>
      assert ("Could not parse data: " + reason)[0] == 'C';
    case ParseFailed(fault) =>
      assert ("Could not parse data: " + FaultMessage(fault))[0] == 'C';
    case _ =>
  }

  /** The `detail` of the HTTPException a failure raises; None for an exception nothing catches. */
  function Detail(f: Failure): (d: Option<string>)
    ensures d.None? <==> f.BadStatus? || f.NotADict?
  {
    match f
    case InvalidUrl => Some("Invalid or missing Google Photos URL")
    case FetchFailed(reason) => Some("Could not fetch URL: " + reason)
    case BadStatus(_) => None
    case DataBlockMissing => Some("Could not find data block")
    case DecodeFailed(reason) => Some("Could not parse data: " + reason)
    case ParseFailed(fault) => Some("Could not parse data: " + FaultMessage(fault))
    case NotADict(_) => None
    case InvalidVideoInfo => Some("Invalid video info format")
    case StreamBlockMissing => Some("Stream data block not found")
    case NoResult => Some("Failed to extract links")
  }

  /**
   * A successful request is the extraction of the decoded text between the
   * first `AF_initDataCallback(` and the nearest `);</script>` of the page.
   */
  lemma HandleSuccess(url: string, fetch: string -> FetchOutcome, decode: string -> DecodeOutcome)
    requires Handle(url, fetch, decode).Ok?
    ensures Accepted(url) && fetch(url).Page?
    ensures Locate(fetch(url).text).Some?
    ensures decode(Locate(fetch(url).text).value).Decoded?
    ensures var tree := decode(Locate(fetch(url).text).value).tree;
      Extract(tree).Ok? && Handle(url, fetch, decode).value == ExtractionJson(Extract(tree).value)
  {
  }

  /** The stream entry of a quality entry whose code is one of the known ints. */
  lemma KnownCodeLink(baseUrl: string, code: nat, width: Value, height: Value)
    requires Int(code) in KnownCodes
    ensures StreamLinkOf(Str(baseUrl), List([Int(code), width, height])) ==
      Ok(StreamLink(QualityLabel(NatToDecimal(code)).value, baseUrl + "=m" + NatToDecimal(code)))
  {
    var q := List([Int(code), width, height]);
    StreamLinkLabel(Str(baseUrl), q);
    assert Show(Int(code)) == NatToDecimal(code) && Show(Str(baseUrl)) == baseUrl;
  }

  /** Two quality entries with known int codes give their two stream entries, in order. */
  lemma KnownCodeStreams(baseUrl: string, q0: Value, q1: Value)
    requires q0.List? && |q0.elems| == 3 && q0.elems[0].Int? && q0.elems[0].i >= 0 && q0.elems[0] in KnownCodes
    requires q1.List? && |q1.elems| == 3 && q1.elems[0].Int? && q1.elems[0].i >= 0 && q1.elems[0] in KnownCodes
    ensures Streams(Str(baseUrl), [q0, q1]) == Ok([
      StreamLink(QualityLabel(NatToDecimal(q0.elems[0].i)).value, baseUrl + "=m" + NatToDecimal(q0.elems[0].i)),
      StreamLink(QualityLabel(NatToDecimal(q1.elems[0].i)).value, baseUrl + "=m" + NatToDecimal(q1.elems[0].i))])
  {
    assert q0 == List([q0.elems[0], q0.elems[1], q0.elems[2]]);
    assert q1 == List([q1.elems[0], q1.elems[1], q1.elems[2]]);
    KnownCodeLink(baseUrl, q0.elems[0].i, q0.elems[1], q0.elems[2]);
    KnownCodeLink(baseUrl, q1.elems[0].i, q1.elems[1], q1.elems[2]);
    var streams := Streams(Str(baseUrl), [q0, q1]);
    assert streams.Ok? && |streams.value| == 2;
    assert StreamLinkOf(Str(baseUrl), [q0, q1][0]) == Ok(streams.value[0]);
    assert StreamLinkOf(Str(baseUrl), [q0, q1][1]) == Ok(streams.value[1]);
    assert streams.value == [streams.value[0], streams.value[1]];
  }

  /** A video info block whose only dict is its third element, holding one stream block. */
  lemma StreamBlockOfThird(first: Value, second: Value, key: string, block: Value)
    requires !first.Dict? && !second.Dict? && IsStreamBlock(block)
    ensures StreamBlock([first, second, Dict([Entry(key, block)])]) == Some(block)
  {
    var items := [first, second, Dict([Entry(key, block)])];
    CandidatesStep(items, 0);
    CandidatesStep(items, 1);
    CandidatesStep(items, 2);
    assert items[..0] == [] && items[..3] == items;
    assert DictValues(items[2].entries) == [block];
    assert Candidates(items) == [block];
    FirstStreamIndexAt([block], 0);
  }

  /**
   * A decoded block of the usual shape: `data` holds the video info block
   * `[fileCode, [baseUrl, 0], {key: [0, 0, 0, 0, 0, 0, 0, quality]}]` and
   * the download URL.
   */
  function SampleTree(fileCode: Value, baseUrl: string, key: string, download: Value, quality: seq<Value>): Value
  {
    var block := List([Int(0), Int(0), Int(0), Int(0), Int(0), Int(0), Int(0), List(quality)]);
    Dict([Entry("data", List([List([fileCode, List([Str(baseUrl), Int(0)]), Dict([Entry(key, block)])]), download]))])
  }

  /** A block of that shape passes every positional lookup, and its stream block is the one it holds. */
  lemma SampleTreeShape(fileCode: Value, baseUrl: string, key: string, download: Value, quality: seq<Value>)
    requires !fileCode.Dict?
    ensures var tree := SampleTree(fileCode, baseUrl, key, download, quality);
      && tree.Dict?
      && DataField(tree.entries) == List([DataField(tree.entries).elems[0], download])
      && IsVideoInfo(DataField(tree.entries).elems[0])
      && DataField(tree.entries).elems[0].elems[0] == fileCode
      && Subscript(DataField(tree.entries).elems[0].elems[1], 0) == Ok(Str(baseUrl))
      && StreamBlock(DataField(tree.entries).elems[0].elems).Some?
      && StreamBlock(DataField(tree.entries).elems[0].elems).value.elems[7].elems == quality
  {
    var tree := SampleTree(fileCode, baseUrl, key, download, quality);
    var block := List([Int(0), Int(0), Int(0), Int(0), Int(0), Int(0), Int(0), List(quality)]);
    var items := [fileCode, List([Str(baseUrl), Int(0)]), Dict([Entry(key, block)])];
    var data := List([List(items), download]);
    assert tree.entries == [Entry("data", data)];
    assert DataField(tree.entries) == data;
    StreamBlockOfThird(items[0], items[1], key, block);
  }

  /** Every block of that shape whose quality entries are long enough is extracted field by field. */
  lemma SampleTreeExtracts(fileCode: Value, baseUrl: string, key: string, download: Value, quality: seq<Value>)
    requires !fileCode.Dict?
    requires forall k :: 0 <= k < |quality| ==> HasIndex(quality[k], 2)
    ensures Extract(SampleTree(fileCode, baseUrl, key, download, quality)) == Ok(Extraction(
      status := true,
      host := "googlephoto",
      filecode := fileCode,
      poster := baseUrl + "=w1920-h1080-no",
      streams := Streams(Str(baseUrl), quality).value,
      download := download,
      vtt := Null))
  {
    SampleTreeShape(fileCode, baseUrl, key, download, quality);
    ExtractSucceeds(SampleTree(fileCode, baseUrl, key, download, quality));
  }

  /** The quality entries `[37, 1920, 1080]` and `[18, 640, 360]` give a 1080p and a 360p stream, in order. */
  lemma Codes37And18Streams(baseUrl: string)
    ensures Streams(Str(baseUrl), [List([Int(37), Int(1920), Int(1080)]), List([Int(18), Int(640), Int(360)])])
      == Ok([StreamLink("1080p", baseUrl + "=m37"), StreamLink("360p", baseUrl + "=m18")])
  {
    KnownCodeStreams(baseUrl, List([Int(37), Int(1920), Int(1080)]), List([Int(18), Int(640), Int(360)]));
    assert NatToDecimal(37) == "37" && NatToDecimal(18) == "18";
    assert baseUrl + "=m" + "37" == baseUrl + "=m37" && baseUrl + "=m" + "18" == baseUrl + "=m18";
  }

  /**
   * A tree whose stream block lists the codes 37 and 18 gives the poster, a
   * 1080p and a 360p stream in that order, and the download URL.
   */
  lemma Codes37And18Extract(fileCode: string, baseUrl: string, key: string, download: string)
    ensures Extract(SampleTree(Str(fileCode), baseUrl, key, Str(download),
      [List([Int(37), Int(1920), Int(1080)]), List([Int(18), Int(640), Int(360)])]))
      == Ok(Extraction(
        status := true,
        host := "googlephoto",
        filecode := Str(fileCode),
        poster := baseUrl + "=w1920-h1080-no",
        streams := [StreamLink("1080p", baseUrl + "=m37"), StreamLink("360p", baseUrl + "=m18")],
        download := Str(download),
        vtt := Null))
  {
    var quality := [List([Int(37), Int(1920), Int(1080)]), List([Int(18), Int(640), Int(360)])];
    Codes37And18Streams(baseUrl);
    SampleTreeExtracts(Str(fileCode), baseUrl, key, Str(download), quality);
  }
}
