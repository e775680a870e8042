# Google Photos link extractor — Dafny model

This project models the core of a small HTTP service. The service takes a
Google Photos share URL, fetches the page, finds the data block that the page
passes to `AF_initDataCallback(...)` in an inline script, and decodes it as
a JavaScript literal. From the decoded tree it builds the direct media links:
a poster URL, one stream URL per quality variant, and a download URL.

The model covers the deterministic part of one `/extract` request
(`main.py`):

- **URL gate** (`extract_links`). A URL is rejected with 400 unless it is
  non-empty and contains `photos.app.goo.gl` or `photos.google.com`.
- **Block locator**. The regular expression
  `AF_initDataCallback\((.*?)\);</script>` (non-greedy, DOTALL) is modelled
  as two substring searches: the first opening marker, then the nearest
  closing marker after it. A lemma shows this is the leftmost, shortest
  match of the pattern.
- **Field extractor and response builder** (`get_google_photos_links`,
  lines 50-95). These work on the decoded tree, a Python value (`None`,
  `bool`, `int`, `str`, `list`, `dict` in insertion order). The model covers
  the positional lookups and the first-match scan for the stream block. It
  also covers the quality-label table, the URL templates and the result
  dict. Python's own semantics are modelled where the source relies on them:
  - Subscripting a string gives a one-character string.
  - A dict raises `KeyError` on an integer index.
  - A scalar raises `TypeError`.
  - `str()` and `repr()` give the text that the f-strings and the table
    lookup see.
- **Pipeline**. `Service.Handle` runs the stages in the source's order.
  Every failure stops the request at its own stage (`Failures.Failure`).
  The failures caught by the handler's `except` clause are kept apart from
  the `HTTPException`s raised on purpose and from exceptions nothing catches.

Modules: `Results` (Option/Result), `Values` (decoded Python values,
subscription, `dict.get`, `str`/`repr`, truthiness), `Failures` (the ways a
request ends without a result), `Locator` (substring search and the block
locator), `Extractor` (lines 50-95), `Service` (URL gate, stage sequencing,
response dict, HTTP status and detail of each failure).

The stream-block search in the source is a nested `for` loop that updates
a variable and exits with `break`. It is modelled as the method
`Extractor.FindStreamBlock` (the outer loop) and the method
`Extractor.ScanDictValues` (the inner loop over one dict's values); the first
qualifying value ends both. `FindStreamBlock` is proved equal to the function `Extractor.StreamBlock`, which takes
the first qualifying value of the flattened scan order. Functions such as
`Extract` use that function.

Every operation is a function of its inputs, and the fetch and the decoder
come in as parameters. So two requests with the same URL, the same page and
the same decoder give equal results, and no state carries over between
requests.

Behaviour of the code that the model keeps on purpose:

- A non-2xx status makes `raise_for_status` raise `HTTPStatusError`. The
  handler catches only `httpx.RequestError`, so this is not turned into the
  500 "Could not fetch URL" response. It is modelled as the uncaught failure
  `BadStatus`.
- "Invalid video info format" and "Stream data block not found" are
  `HTTPException`s with exactly those details. The handler's `except` does
  not catch them, so they get no "Could not parse data:" prefix.
- A decoded top level that is not a dict makes `.get` raise
  `AttributeError`, which nothing catches (`NotADict`).
- `filecode` and `download` are whatever value sits at that position, not
  necessarily strings.
- Labels come from a lookup of `str(code)`, so the string `"37"` gets the
  same label as the int `37`.
- The fallback label is evaluated before the lookup. A quality entry with
  fewer than three elements therefore fails even when its code is known.

## Model

| member | source | states |
|---|---|---|
| `Service.AcceptedIff` | main.py:107-108 | a URL passes the gate exactly when `photos.app.goo.gl` or `photos.google.com` occurs in it (which also makes it non-empty) |
| `Service.Handle` | main.py:36-114 | the request answers "Invalid or missing Google Photos URL" exactly when the URL fails the gate, whatever the fetch and the decoder would return, and no later stage answers with 400; the "Failed to extract links" branch is never taken; for an accepted URL a transport error gives "Could not fetch URL: …", a non-2xx status the uncaught HTTPStatusError, a page without a marker pair "Could not find data block", a decoder failure "Could not parse data: …", a failed extraction its own failure unchanged, and a successful extraction the result dict |
| `Service.HandleSuccess` | main.py:36-51 | a successful request fetched a page, located a block in it, decoded that block, and returns the result dict of its extraction |
| `Service.ExtractionJson` | main.py:87-95 | the result is a non-empty (hence truthy) dict with the keys status, host, filecode, poster, streams, download, vtt in that order |
| `Service.StatusCode` | main.py:42-112 | a failure is answered with 400 exactly when its detail is "Invalid or missing Google Photos URL" (main.py:108), and every other failure with 500; no 500 detail can equal that message |
| `Service.Detail` | main.py:40-99 | exactly the two uncaught exceptions (HTTPStatusError from `raise_for_status`, AttributeError from `.get` on a non-dict) carry no detail; every other failure is an HTTPException with a detail message |
| `Locator.FindFrom` | main.py:45 | the result is the first occurrence of the pattern at or after the start position; None exactly when there is none |
| `Locator.ContainsIff` | main.py:107 | Python's `p in s` holds exactly when `p` occurs at some position of `s` |
| `Locator.LocateIsLeftmostShortestMatch` | main.py:45-48 | the locator gives None exactly when the pattern has no match; otherwise it gives the capture of the leftmost match, and among the matches starting there, the shortest one |
| `Locator.LocateFindsPayload` | main.py:45 | a page made of a prefix without the opening marker, the marker, a payload without the closing marker, the closing marker and any suffix yields exactly that payload |
| `Values.Subscript` | main.py:52-59 | `v[i]` succeeds exactly when `v` is a list or a string with more than `i` elements |
| `Values.Lookup` | main.py:52 | `d.get(key)` is None exactly when no entry has the key; otherwise it is the value of the first entry with that key |
| `Values.Truthy` | main.py:111 | a value is falsy exactly when it is None, False, 0, the empty string, the empty list or the empty dict |
| `Values.Show` | main.py:81-91 | `str(v)` is the string itself for a str, "None", "True"/"False", the decimal digits of an int (with a leading "-" when negative), and a bracketed `[...]` or `{...}` display for a list or dict |
| `Values.NatToDecimalInjective` | main.py:81 | distinct numbers print as distinct decimal strings |
| `Values.ShowIsDecimal` | main.py:81 | `str(v)` is the decimal form of `n` exactly when `v` is the int `n` or the string of those digits |
| `Extractor.FirstStreamIndex` | main.py:61-69 | the result is the position of the first stream block (a list longer than 7 whose element 7 is a list) with none before it; None exactly when no value qualifies |
| `Extractor.StreamBlock` | main.py:61-73 | the chosen block qualifies and is the first qualifying value in scan order (elements of the video info block in order, only dicts, their values in insertion order); None exactly when none qualifies |
| `Extractor.FindStreamBlock` | main.py:61-69 | the nested loop with its two breaks returns exactly the first qualifying value in scan order |
| `Extractor.ScanDictValues` | main.py:63-67 | after a scan that met no qualifying value, the inner loop over one dict's values returns a value only when it is the stream block of the whole scan, and returns None only when the scan up to and including that dict met no qualifying value |
| `Extractor.StreamLinkOf` | main.py:80-83 | a quality entry gives a stream exactly when it has at least three elements; its url is `str(base_url) + "=m" + str(q[0])` |
| `Extractor.Streams` | main.py:79-85 | the comprehension succeeds exactly when every quality entry has three elements; then it has one stream per entry, in order; otherwise it fails with the fault of the first short entry |
| `Extractor.QualityLabelKnownIff` | main.py:78-81 | the table labels a code exactly when it is the int or the string 37, 22, 18 or 36, with 1080p, 720p, 360p and 180p respectively |
| `Extractor.StreamLinkLabel` | main.py:78-82 | an entry `[code, width, height]` gets the table's label for a known code, else `Resolution {width}x{height}`; its url is `base + "=m" + str(code)` |
| `Extractor.StreamLinkShortEntry` | main.py:81 | a quality entry with fewer than three elements fails with IndexError whatever its code |
| `Extractor.DataField` | main.py:52-59 | `data.get('data', [])` is the empty list when no entry has the key "data", and otherwise the value of an entry with that key |
| `Extractor.Caught` | main.py:97-99 | a subscription fault raised inside the `try` becomes the caught parse error carrying that fault; a success passes through unchanged |
| `Extractor.Extract` | main.py:50-95 | a non-dict top level raises the uncaught AttributeError; a failure is a caught parse error, the AttributeError, "Invalid video info format" or "Stream data block not found", never a failure of another stage; a success has at least two `data` entries and a valid video info block, and gives status true, host "googlephoto", vtt None, filecode `video_info_block[0]`, download `data[1]`, poster `str(base_url) + "=w1920-h1080-no"`, and one stream per quality entry of the stream block |
| `Extractor.ExtractVideoInfoFailures` | main.py:52-55 | a missing or empty `data` is a caught IndexError, any failing `data[0]` is a caught parse error, and a `data[0]` that is not a list of at least two elements is "Invalid video info format" |
| `Extractor.ExtractBaseUrlFailure` | main.py:57-59 | when `video_info_block[1][0]` cannot be read, the result is the caught parse error with that fault, whatever `data[1]` would give, since line 57 runs before line 59 |
| `Extractor.ExtractNeedsDownloadEntry` | main.py:57-59 | a `data` list with one element fails with IndexError even when that element is a valid video info block |
| `Extractor.ExtractStreamBlockMissing` | main.py:61-73 | once the positional lookups succeed, the result is "Stream data block not found" exactly when no scanned value qualifies |
| `Extractor.ExtractQualityEntries` | main.py:75-99 | once the block is found, extraction succeeds exactly when every quality entry has three elements; otherwise there is a first short entry, and the result is the caught parse error carrying that entry's fault, whatever its code |
| `Extractor.ExtractStreamsFailure` | main.py:79-99 | a failure of the stream comprehension becomes the caught parse error "Could not parse data: …" with the comprehension's fault |
| `Extractor.ExtractSucceeds` | main.py:87-95 | when every stage succeeds, the result is fixed field by field by the decoded tree |
| `Service.KnownCodeLink` | main.py:78-82 | an entry whose code is a known int gets that code's label and the url `base + "=m" + code` |
| `Service.SampleTreeExtracts` | main.py:52-95 | every tree of the usual shape (file code, `[base_url, 0]`, a dict holding the stream block; then the download URL) is extracted field by field |
| `Service.Codes37And18Extract` | main.py:50-95 | for any file code, base URL, dict key and download URL, a block whose stream block lists `[37, 1920, 1080]` then `[18, 640, 360]` yields the file code, the poster `base=w1920-h1080-no`, streams 1080p at `base=m37` then 360p at `base=m18`, and the download URL |

## Left out

- The HTTP fetch (shared `httpx.AsyncClient`, User-Agent header, 15-second timeout) is network I/O. It is the parameter `fetch` of `Service.Handle`, with three outcomes: a page, a `RequestError`, or a non-2xx status.
- Other exceptions that `http_client.get` raises are not modelled. One is `httpx.InvalidURL`, for a URL that passes the gate but does not parse, such as one with a non-numeric port. It is neither a `RequestError` nor an `HTTPStatusError`, so nothing catches it at main.py:40 and the framework answers with a generic 500. `FetchOutcome` has no such case.
- Turning the response bytes into `response.text` (charset detection) belongs to the HTTP library and is not modelled.
- `demjson3.decode` is a foreign lenient parser. It is the parameter `decode`, and its failure is an abstract `DecodeError` with a message.
- Floats, `NaN`/`Infinity` and demjson3's `undefined` are not values of the model, so `str()` of a float is not modelled.
- Dict keys are strings only. A JavaScript object literal may have numeric property names, which the decoder could turn into non-string keys. The model has none, so `Values.Subscript` answers `KeyError` for every dict. A dict holding the integer key `0` or `1` would instead yield a value at main.py:52, 57 or 59.
- Dict keys are assumed distinct, as in a Python dict. The model does not enforce this, and `Lookup` takes the first entry with the key.
- Values.Repr: escapes backslash, the quote, tab, newline, carriage return and the code points below U+0020, from U+007F to U+00A0, and U+00AD. Other non-printable code points above U+00A0, which CPython also escapes, are left as they are.
- FastAPI routing is not modelled. This includes the 422 response for a missing `URL` query parameter, the `/` greeting endpoint, the conversion of the result dict to JSON, and the generic 500 "Internal Server Error" for uncaught exceptions. In the model, uncaught exceptions are failures with no detail.
- The async context manager, the shutdown hook that closes the client, and logging are resource management and diagnostics with no effect on results.
