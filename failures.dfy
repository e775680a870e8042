/**
 * Why a request to `/extract` ends without a result: one case per
 * HTTPException the handler raises, and one per exception nothing catches.
 */
module Failures {
  import opened Values

  datatype Failure =
    | InvalidUrl                       // HTTPException 400 "Invalid or missing Google Photos URL"
    | FetchFailed(reason: string)      // HTTPException 500 "Could not fetch URL: ..." (httpx.RequestError)
    | BadStatus(code: int)             // httpx.HTTPStatusError from raise_for_status, not caught
    | DataBlockMissing                 // HTTPException 500 "Could not find data block"
    | DecodeFailed(reason: string)     // HTTPException 500 "Could not parse data: ..." (JSONDecodeError)
    | ParseFailed(fault: Fault)        // HTTPException 500 "Could not parse data: ..." (IndexError, KeyError, TypeError)
    | NotADict(typeName: string)       // AttributeError from `.get` on the decoded value, not caught
    | InvalidVideoInfo                 // HTTPException 500 "Invalid video info format"
    | StreamBlockMissing               // HTTPException 500 "Stream data block not found"
    | NoResult                         // HTTPException 500 "Failed to extract links"
}
