/**
 * The field extractor and response builder of `get_google_photos_links`: from
 * the decoded data block to the extraction result, or to the failure that
 * stops the request.
 */
module Extractor {
  import opened Results
  import opened Values
  import opened Failures

  /** One entry of `streams`: `{'label': ..., 'url': ...}`. */
  datatype StreamLink = StreamLink(qualityLabel: string, url: string)

  /** The result dict, field by field in its key order. */
  datatype Extraction = Extraction(
    status: bool,
    host: string,
    filecode: Value,
    poster: string,
    streams: seq<StreamLink>,
    download: Value,
    vtt: Value)

  /** A subscription fault raised inside the `try` is caught as a parse error. */
  function Caught<T>(r: Result<T, Fault>): (c: Result<T, Failure>)
    ensures c.Ok? <==> r.Ok?
    ensures c.Ok? ==> c.value == r.value
    ensures c.Err? ==> c.error.ParseFailed? && c.error.fault == r.error
  {
    match r
    case Ok(v) => Ok(v)
    case Err(f) => Err(ParseFailed(f))
  }

  // ----- locating the stream block -----

  /** A list longer than 7 whose element at index 7 is a list. */
  predicate IsStreamBlock(v: Value)
  {
    v.List? && |v.elems| > 7 && v.elems[7].List?
  }

  predicate NoStreamBlock(cs: seq<Value>)
  {
    forall j :: 0 <= j < |cs| ==> !IsStreamBlock(cs[j])
  }

  /** `d.values()` in insertion order. */
  function DictValues(es: seq<Entry>): (r: seq<Value>)
    ensures |r| == |es| && forall k :: 0 <= k < |es| ==> r[k] == es[k].val
  {
    seq(|es|, k requires 0 <= k < |es| => es[k].val)
  }

  /** The values the scan looks at for one element of the video info block. */
  function ScannedValues(item: Value): seq<Value>
  {
    if item.Dict? then DictValues(item.entries) else []
  }

  /** Every value the scan may look at, in scan order: dict elements only, their values in insertion order. */
  function Candidates(items: seq<Value>): seq<Value>
  {
    if items == [] then [] else Candidates(items[..|items| - 1]) + ScannedValues(items[|items| - 1])
  }

  /** The position of the first stream block among `cs`. */
  function FirstStreamIndex(cs: seq<Value>): (r: Option<nat>)
    ensures r.Some? ==> r.value < |cs| && IsStreamBlock(cs[r.value]) && NoStreamBlock(cs[..r.value])
    ensures r.None? <==> NoStreamBlock(cs)
  {
    if cs == [] then None
    else if IsStreamBlock(cs[0]) then Some(0)
    else match FirstStreamIndex(cs[1..])
      case None => None
      case Some(k) => Some(k + 1)
  }

  /** The stream block the scan of `video_info_block` settles on: the first qualifying value. */
  function StreamBlock(items: seq<Value>): (r: Option<Value>)
    ensures r.Some? ==> IsStreamBlock(r.value)
    ensures r.Some? ==>
      exists p ::
        && 0 <= p < |Candidates(items)|
        && Candidates(items)[p] == r.value
        && NoStreamBlock(Candidates(items)[..p])
    ensures r.None? <==> NoStreamBlock(Candidates(items))
  {
    var cs := Candidates(items);
    match FirstStreamIndex(cs)
    case None => None
    case Some(k) => Some(cs[k])
  }

  lemma FirstStreamIndexAt(cs: seq<Value>, p: nat)
    requires p < |cs| && IsStreamBlock(cs[p]) && NoStreamBlock(cs[..p])
    ensures FirstStreamIndex(cs) == Some(p)
  {
    var r := FirstStreamIndex(cs);
    assert forall j :: 0 <= j < p ==> cs[..p][j] == cs[j];
    if r.Some? {
      assert forall j :: 0 <= j < r.value ==> cs[..r.value][j] == cs[j];
    }
  }

  lemma {:induction false} CandidatesPrefix(items: seq<Value>, i: nat)
    requires i <= |items|
    ensures Candidates(items[..i]) <= Candidates(items)
    decreases |items| - i
  {
    if i < |items| {
      CandidatesPrefix(items, i + 1);
      assert items[..i + 1][..i] == items[..i];
    } else {
      assert items[..i] == items;
    }
  }

  lemma CandidatesStep(items: seq<Value>, i: nat)
    requires i < |items|
    ensures Candidates(items[..i + 1]) == Candidates(items[..i]) + ScannedValues(items[i])
  {
    assert items[..i + 1][..i] == items[..i];
  }

  lemma NoStreamBlockExtend(cs: seq<Value>, v: Value)
    requires NoStreamBlock(cs) && !IsStreamBlock(v)
    ensures NoStreamBlock(cs + [v])
  {
    assert forall j :: 0 <= j < |cs| ==> (cs + [v])[j] == cs[j];
  }

  /**
   * A qualifying value found at entry `k` of the dict at position `i`, after a
   * scan that met no qualifying value before it, is the stream block.
   */
  lemma StreamBlockFoundAt(items: seq<Value>, i: nat, k: nat)
    requires i < |items| && items[i].Dict? && k < |items[i].entries|
    requires IsStreamBlock(items[i].entries[k].val)
    requires NoStreamBlock(Candidates(items[..i]) + DictValues(items[i].entries)[..k])
    ensures StreamBlock(items) == Some(items[i].entries[k].val)
  {
    var seen := Candidates(items[..i]) + DictValues(items[i].entries)[..k];
    CandidatesStep(items, i);
    CandidatesPrefix(items, i + 1);
    var all := Candidates(items);
    assert Candidates(items[..i + 1]) == Candidates(items[..i]) + DictValues(items[i].entries);
    assert all[..|seen|] == seen;
    assert all[|seen|] == items[i].entries[k].val;
    FirstStreamIndexAt(all, |seen|);
  }

  /**
   * The inner loop of the source over the values of the dict at position `i`
   * of `items`, after a scan of `items[..i]` that met no qualifying value: a
   * value it returns is the stream block, and when it returns None the scan of
   * `items[..i + 1]` met no qualifying value either.
   */
  method ScanDictValues(ghost items: seq<Value>, ghost i: nat, entries: seq<Entry>) returns (block: Option<Value>)
    requires i < |items| && items[i] == Dict(entries)
    requires NoStreamBlock(Candidates(items[..i]))
    ensures block.Some? ==> block == StreamBlock(items)
    ensures block.None? ==> NoStreamBlock(Candidates(items[..i + 1]))
  {
    ghost var before := Candidates(items[..i]);
    var k := 0;
    while k < |entries|
      invariant 0 <= k <= |entries|
      invariant NoStreamBlock(before + DictValues(entries)[..k])
    {
      var value := entries[k].val;
      if IsStreamBlock(value) {
        StreamBlockFoundAt(items, i, k);
        return Some(value);
      }
      NoStreamBlockExtend(before + DictValues(entries)[..k], value);
      assert before + DictValues(entries)[..k + 1] == (before + DictValues(entries)[..k]) + [value];
      k := k + 1;
    }
    assert DictValues(entries)[..|entries|] == DictValues(entries);
    CandidatesStep(items, i);
    block := None;
  }

  /**
   * The nested loop of the source: the outer loop walks `video_info_block`,
   * the inner one the values of each dict element, and the first qualifying
   * value ends both loops.
   */
  method FindStreamBlock(items: seq<Value>) returns (block: Option<Value>)
    ensures block == StreamBlock(items)
  {
    block := None;
    var i := 0;
    while i < |items|
      invariant 0 <= i <= |items|
      invariant block.None? && NoStreamBlock(Candidates(items[..i]))
    {
      var item := items[i];
      if item.Dict? {
        block := ScanDictValues(items, i, item.entries);
        if block.Some? {
          return;
        }
      } else {
        CandidatesStep(items, i);
      }
      i := i + 1;
    }
    assert items[..i] == items;
  }

  // ----- building the response -----

  /** The labels of the known quality codes, keyed by `str(code)`. */
  function QualityLabel(code: string): Option<string>
  {
    if code == "37" then Some("1080p")
    else if code == "22" then Some("720p")
    else if code == "18" then Some("360p")
    else if code == "36" then Some("180p")
    else None
  }

  /**
   * One stream entry for the quality entry `q`. The fallback label reads
   * `q[1]` and `q[2]` before the table lookup happens, so those indexes fail
   * even for a known code.
   */
  function StreamLinkOf(baseUrl: Value, q: Value): (r: Result<StreamLink, Fault>)
    ensures r.Ok? <==> HasIndex(q, 2)
    ensures r.Ok? ==> r.value.url == Show(baseUrl) + "=m" + Show(Subscript(q, 0).value)
  {
    var code :- Subscript(q, 0);
    var width :- Subscript(q, 1);
    var height :- Subscript(q, 2);
    var fallback := "Resolution " + Show(width) + "x" + Show(height);
    var caption := match QualityLabel(Show(code)) case Some(known) => known case None => fallback;
    Ok(StreamLink(caption, Show(baseUrl) + "=m" + Show(code)))
  }

  /** The list comprehension over `quality_info`; the first failing entry stops it. */
  function Streams(baseUrl: Value, qs: seq<Value>): (r: Result<seq<StreamLink>, Fault>)
    ensures r.Ok? <==> forall k :: 0 <= k < |qs| ==> HasIndex(qs[k], 2)
    ensures r.Ok? ==>
      && |r.value| == |qs|
      && forall k :: 0 <= k < |qs| ==> StreamLinkOf(baseUrl, qs[k]) == Ok(r.value[k])
    ensures r.Err? ==>
      exists k ::
        && 0 <= k < |qs|
        && StreamLinkOf(baseUrl, qs[k]) == Err(r.error)
        && forall j :: 0 <= j < k ==> HasIndex(qs[j], 2)
  {
    if qs == [] then Ok([])
    else
      var first :- StreamLinkOf(baseUrl, qs[0]);
      var rest :- Streams(baseUrl, qs[1..]);
      Ok([first] + rest)
  }

  /** `data.get('data', [])` on the decoded dict. */
  function DataField(entries: seq<Entry>): (v: Value)
    ensures (forall k :: 0 <= k < |entries| ==> entries[k].key != "data") ==> v == List([])
    ensures (exists k :: 0 <= k < |entries| && entries[k].key == "data") ==>
      exists k :: 0 <= k < |entries| && entries[k].key == "data" && v == entries[k].val
  {
    match Lookup(entries, "data")
    case Some(v) => v
    case None => List([])
  }

  predicate IsVideoInfo(v: Value)
  {
    v.List? && |v.elems| >= 2
  }

  /** Lines 52-95 of the request handler, on the decoded data block. */
  function Extract(tree: Value): (r: Result<Extraction, Failure>)
    ensures !tree.Dict? ==> r == Err(NotADict(TypeName(tree)))
    ensures r.Err? ==>
      r.error.ParseFailed? || r.error.NotADict? || r.error == InvalidVideoInfo || r.error == StreamBlockMissing
    ensures r.Ok? ==>
      var data := DataField(tree.entries);
      data.List? && |data.elems| >= 2 && IsVideoInfo(data.elems[0]) &&
      var videoInfo := data.elems[0].elems;
      var baseUrl := Subscript(videoInfo[1], 0);
      var block := StreamBlock(videoInfo);
      baseUrl.Ok? && block.Some? &&
      r.value.status == true &&
      r.value.host == "googlephoto" &&
      r.value.filecode == videoInfo[0] &&
      r.value.poster == Show(baseUrl.value) + "=w1920-h1080-no" &&
      r.value.download == data.elems[1] &&
      r.value.vtt == Null &&
      |r.value.streams| == |block.value.elems[7].elems| &&
      forall k :: 0 <= k < |r.value.streams| ==>
        var q := block.value.elems[7].elems[k];
        StreamLinkOf(baseUrl.value, q) == Ok(r.value.streams[k])
  {
    if !tree.Dict? then Err(NotADict(TypeName(tree)))
    else
      var data := DataField(tree.entries);
      var videoInfo :- Caught(Subscript(data, 0));
      if !IsVideoInfo(videoInfo) then Err(InvalidVideoInfo)
      else
        var baseUrl :- Caught(Subscript(videoInfo.elems[1], 0));
        var fileCode := videoInfo.elems[0];
        var download :- Caught(Subscript(data, 1));
        match StreamBlock(videoInfo.elems)
        case None => Err(StreamBlockMissing)
        case Some(block) =>
          var streams :- Caught(Streams(baseUrl, block.elems[7].elems));
          Ok(Extraction(
            status := true,
            host := "googlephoto",
            filecode := fileCode,
            poster := Show(baseUrl) + "=w1920-h1080-no",
            streams := streams,
            download := download,
            vtt := Null))
  }

  // ----- properties of the extraction -----

  /** The codes whose `str()` the quality table knows. */
  const KnownCodes: set<Value> :=
    {Int(37), Str("37"), Int(22), Str("22"), Int(18), Str("18"), Int(36), Str("36")}

  /**
   * The table gives a label exactly to the ints 37, 22, 18 and 36 and to the
   * strings of those digits; every other value falls back.
   */
  lemma QualityLabelKnownIff(code: Value)
    ensures QualityLabel(Show(code)).Some? <==> code in KnownCodes
    ensures code == Int(37) || code == Str("37") ==> QualityLabel(Show(code)) == Some("1080p")
    ensures code == Int(22) || code == Str("22") ==> QualityLabel(Show(code)) == Some("720p")
    ensures code == Int(18) || code == Str("18") ==> QualityLabel(Show(code)) == Some("360p")
    ensures code == Int(36) || code == Str("36") ==> QualityLabel(Show(code)) == Some("180p")
  {
    KnownCodesLabelled(code);
    UnknownCodesFallBack(code);
  }

  /** The int and the string form of each known code get that code's label. */
  lemma KnownCodesLabelled(code: Value)
    ensures code == Int(37) || code == Str("37") ==> QualityLabel(Show(code)) == Some("1080p")
    ensures code == Int(22) || code == Str("22") ==> QualityLabel(Show(code)) == Some("720p")
    ensures code == Int(18) || code == Str("18") ==> QualityLabel(Show(code)) == Some("360p")
    ensures code == Int(36) || code == Str("36") ==> QualityLabel(Show(code)) == Some("180p")
  {
    assert NatToDecimal(37) == "37" && NatToDecimal(22) == "22";
    assert NatToDecimal(18) == "18" && NatToDecimal(36) == "36";
  }

  /** Only a known code gets a label from the table. */
  lemma UnknownCodesFallBack(code: Value)
    ensures QualityLabel(Show(code)).Some? ==> code in KnownCodes
  {
    assert NatToDecimal(37) == "37" && NatToDecimal(22) == "22";
    assert NatToDecimal(18) == "18" && NatToDecimal(36) == "36";
    ShowIsDecimal(code, 37);
    ShowIsDecimal(code, 22);
    ShowIsDecimal(code, 18);
    ShowIsDecimal(code, 36);
  }

  /**
   * The label of a quality entry `[code, width, height, ...]`: the table's
   * label for a known code, `Resolution {width}x{height}` for any other.
   */
  lemma StreamLinkLabel(baseUrl: Value, q: Value)
    requires q.List? && |q.elems| >= 3
    ensures StreamLinkOf(baseUrl, q).Ok?
    ensures var link := StreamLinkOf(baseUrl, q).value;
      && (q.elems[0] in KnownCodes ==> Some(link.qualityLabel) == QualityLabel(Show(q.elems[0])))
      && (q.elems[0] !in KnownCodes ==>
            link.qualityLabel == "Resolution " + Show(q.elems[1]) + "x" + Show(q.elems[2]))
      && link.url == Show(baseUrl) + "=m" + Show(q.elems[0])
  {
    QualityLabelKnownIff(q.elems[0]);
  }

  /** A quality entry with fewer than 3 elements fails, whatever its code. */
  lemma StreamLinkShortEntry(baseUrl: Value, q: Value)
    requires q.List? && |q.elems| < 3
    ensures StreamLinkOf(baseUrl, q) == Err(IndexError("list index out of range"))
  {
  }

  /**
   * The failures decided by `data.get('data', [])[0]`: a missing or empty
   * `data` list is a caught parse error, and a video info block that is not a
   * list of at least two elements is "Invalid video info format".
   */
  lemma ExtractVideoInfoFailures(tree: Value)
    requires tree.Dict?
    ensures Lookup(tree.entries, "data") == None ==>
      Extract(tree) == Err(ParseFailed(IndexError("list index out of range")))
    ensures Lookup(tree.entries, "data") == Some(List([])) ==>
      Extract(tree) == Err(ParseFailed(IndexError("list index out of range")))
    ensures Subscript(DataField(tree.entries), 0).Err? ==>
      Extract(tree) == Err(ParseFailed(Subscript(DataField(tree.entries), 0).error))
    ensures Subscript(DataField(tree.entries), 0).Ok? && !IsVideoInfo(Subscript(DataField(tree.entries), 0).value) ==>
      Extract(tree) == Err(InvalidVideoInfo)
  {
  }

  /**
   * `video_info_block[1][0]` is read before `data[1]`: when it cannot be
   * read, the request fails with that fault as a caught parse error, however
   * many elements `data` has.
   */
  lemma ExtractBaseUrlFailure(tree: Value)
    requires tree.Dict?
    requires Subscript(DataField(tree.entries), 0).Ok?
    requires IsVideoInfo(Subscript(DataField(tree.entries), 0).value)
    requires !HasIndex(Subscript(DataField(tree.entries), 0).value.elems[1], 0)
    ensures Extract(tree) ==
      Err(ParseFailed(Subscript(Subscript(DataField(tree.entries), 0).value.elems[1], 0).error))
  {
  }

  /** A `data` list with a single element fails even when that element is a valid video info block. */
  lemma ExtractNeedsDownloadEntry(tree: Value)
    requires tree.Dict?
    requires DataField(tree.entries).List? && |DataField(tree.entries).elems| == 1
    requires IsVideoInfo(DataField(tree.entries).elems[0])
    requires HasIndex(DataField(tree.entries).elems[0].elems[1], 0)
    ensures Extract(tree) == Err(ParseFailed(IndexError("list index out of range")))
  {
  }

  /** Once the positional lookups succeed, the request fails at the scan exactly when no value qualifies. */
  lemma ExtractStreamBlockMissing(tree: Value)
    requires tree.Dict?
    requires DataField(tree.entries).List? && |DataField(tree.entries).elems| >= 2
    requires IsVideoInfo(DataField(tree.entries).elems[0])
    requires HasIndex(DataField(tree.entries).elems[0].elems[1], 0)
    ensures Extract(tree) == Err(StreamBlockMissing) <==>
      NoStreamBlock(Candidates(DataField(tree.entries).elems[0].elems))
  {
  }

  /**
   * Once the stream block is found, the extraction succeeds exactly when every
   * quality entry has at least three elements, and otherwise fails with a
   * caught parse error carrying the fault of the first entry that does not.
   */
  lemma ExtractQualityEntries(tree: Value)
    requires tree.Dict?
    requires DataField(tree.entries).List? && |DataField(tree.entries).elems| >= 2
    requires IsVideoInfo(DataField(tree.entries).elems[0])
    requires HasIndex(DataField(tree.entries).elems[0].elems[1], 0)
    requires StreamBlock(DataField(tree.entries).elems[0].elems).Some?
    ensures var quality := StreamBlock(DataField(tree.entries).elems[0].elems).value.elems[7].elems;
      && (Extract(tree).Ok? <==> forall k :: 0 <= k < |quality| ==> HasIndex(quality[k], 2))
      && (Extract(tree).Err? ==>
            var baseUrl := Subscript(DataField(tree.entries).elems[0].elems[1], 0).value;
            exists k ::
              && 0 <= k < |quality|
              && !HasIndex(quality[k], 2)
              && (forall j :: 0 <= j < k ==> HasIndex(quality[j], 2))
              && Extract(tree) == Err(ParseFailed(StreamLinkOf(baseUrl, quality[k]).error)))
  {
    var videoInfo := DataField(tree.entries).elems[0].elems;
    var baseUrl := Subscript(videoInfo[1], 0).value;
    var quality := StreamBlock(videoInfo).value.elems[7].elems;
    var streams := Streams(baseUrl, quality);
    if streams.Err? {
      ExtractStreamsFailure(tree);
      var k :| 0 <= k < |quality| && StreamLinkOf(baseUrl, quality[k]) == Err(streams.error) &&
        forall j :: 0 <= j < k ==> HasIndex(quality[j], 2);
      assert !HasIndex(quality[k], 2);
    } else {
      ExtractSucceeds(tree);
    }
  }

  /** A quality entry that the comprehension cannot turn into a stream is a caught parse error. */
  lemma ExtractStreamsFailure(tree: Value)
    requires tree.Dict?
    requires DataField(tree.entries).List? && |DataField(tree.entries).elems| >= 2
    requires IsVideoInfo(DataField(tree.entries).elems[0])
    requires HasIndex(DataField(tree.entries).elems[0].elems[1], 0)
    requires StreamBlock(DataField(tree.entries).elems[0].elems).Some?
    requires var videoInfo := DataField(tree.entries).elems[0].elems;
      Streams(Subscript(videoInfo[1], 0).value, StreamBlock(videoInfo).value.elems[7].elems).Err?
    ensures var videoInfo := DataField(tree.entries).elems[0].elems;
      Extract(tree) ==
        Err(ParseFailed(Streams(Subscript(videoInfo[1], 0).value, StreamBlock(videoInfo).value.elems[7].elems).error))
  {
  }

  /**
   * When every stage succeeds the result is fixed field by field: `filecode`
   * is `video_info_block[0]`, `download` is `data[1]`, the poster and the
   * stream URLs are built from `video_info_block[1][0]`, `vtt` is None.
   */
  lemma ExtractSucceeds(tree: Value)
    requires tree.Dict?
    requires DataField(tree.entries).List? && |DataField(tree.entries).elems| >= 2
    requires IsVideoInfo(DataField(tree.entries).elems[0])
    requires HasIndex(DataField(tree.entries).elems[0].elems[1], 0)
    requires StreamBlock(DataField(tree.entries).elems[0].elems).Some?
    requires var quality := StreamBlock(DataField(tree.entries).elems[0].elems).value.elems[7].elems;
      forall k :: 0 <= k < |quality| ==> HasIndex(quality[k], 2)
    ensures
      var data := DataField(tree.entries).elems;
      var videoInfo := data[0].elems;
      var baseUrl := Subscript(videoInfo[1], 0).value;
      var quality := StreamBlock(videoInfo).value.elems[7].elems;
      Extract(tree) == Ok(Extraction(
        status := true,
        host := "googlephoto",
        filecode := videoInfo[0],
        poster := Show(baseUrl) + "=w1920-h1080-no",
        streams := Streams(baseUrl, quality).value,
        download := data[1],
        vtt := Null))
  {
  }
}
