/**
 * Substring search, and the block locator: the page's embedded data block is
 * what `re.search(r'AF_initDataCallback\((.*?)\);</script>', text, re.DOTALL)`
 * captures, modelled as a search for the opening marker followed by a search
 * for the nearest closing marker after it.
 */
module Locator {
  import opened Results

  const Marker := "AF_initDataCallback("
  const Terminator := ");</script>"

  /** `p` occurs in `s` starting at position `i`. */
  predicate OccursAt(s: string, p: string, i: nat)
  {
    i + |p| <= |s| && s[i..i + |p|] == p
  }

  /** The first position at or after `from` where `p` occurs in `s`. */
  function FindFrom(s: string, p: string, from: nat): (r: Option<nat>)
    ensures r.Some? ==> from <= r.value && OccursAt(s, p, r.value)
    ensures r.Some? ==> forall j :: from <= j < r.value ==> !OccursAt(s, p, j)
    ensures r.None? ==> forall j :: from <= j ==> !OccursAt(s, p, j)
    decreases |s| - from
  {
    if from + |p| > |s| then None
    else if OccursAt(s, p, from) then Some(from)
    else FindFrom(s, p, from + 1)
  }

  /** An occurrence with none before it, from `from` on, is what FindFrom finds. */
  lemma FindFromFinds(s: string, p: string, from: nat, k: nat)
    requires from <= k && OccursAt(s, p, k)
    requires forall j :: from <= j < k ==> !OccursAt(s, p, j)
    ensures FindFrom(s, p, from) == Some(k)
  {
  }

  /** Python's `p in s`. */
  predicate Contains(s: string, p: string)
  {
    FindFrom(s, p, 0).Some?
  }

  lemma ContainsIff(s: string, p: string)
    ensures Contains(s, p) <==> exists i :: OccursAt(s, p, i)
  {
    if !Contains(s, p) {
      assert forall i :: !OccursAt(s, p, i);
    }
  }

  /**
   * A match of the pattern whose capture group spans `start + |Marker|` up to
   * `close`: the opening marker at `start` and the closing marker at `close`.
   * DOTALL lets the capture hold any character, line breaks included.
   */
  predicate MatchAt(text: string, start: nat, close: nat)
  {
    OccursAt(text, Marker, start) && start + |Marker| <= close && OccursAt(text, Terminator, close)
  }

  /** The text between the first opening marker and the nearest closing marker after it. */
  function Locate(text: string): (r: Option<string>)
  {
    match FindFrom(text, Marker, 0)
    case None => None
    case Some(start) =>
      match FindFrom(text, Terminator, start + |Marker|)
      case None => None
      case Some(close) => Some(text[start + |Marker|..close])
  }

  /**
   * Locate is what `re.search` with the non-greedy pattern returns: there is no
   * match at all exactly when it gives None; otherwise it gives the capture of
   * the match that starts leftmost, and of the matches starting there, the
   * shortest one.
   */
  lemma {:induction false} LocateIsLeftmostShortestMatch(text: string)
    ensures Locate(text).None? <==> forall start: nat, close: nat :: !MatchAt(text, start, close)
    ensures Locate(text).Some? ==>
      exists start: nat, close: nat ::
        MatchAt(text, start, close) && Locate(text).value == text[start + |Marker|..close] &&
        forall start': nat, close': nat :: MatchAt(text, start', close') ==>
          start < start' || (start == start' && close <= close')
  {
    var first := FindFrom(text, Marker, 0);
    if first.Some? {
      var start := first.value;
      var next := FindFrom(text, Terminator, start + |Marker|);
      if next.Some? {
        var close := next.value;
        assert MatchAt(text, start, close);
        forall start', close' | MatchAt(text, start', close')
          ensures start < start' || (start == start' && close <= close')
        {
          assert start <= start';
        }
      } else {
        forall start', close' ensures !MatchAt(text, start', close') {
          if OccursAt(text, Marker, start') {
            assert start <= start';
          }
        }
      }
    }
  }

  /**
   * A page built as some prefix without the opening marker, the marker, a
   * payload without the closing marker, the closing marker and any suffix
   * yields exactly that payload.
   */
  lemma LocateFindsPayload(prefix: string, payload: string, suffix: string)
    requires forall i :: !OccursAt(prefix + Marker, Marker, i) || i == |prefix|
    requires forall i :: !OccursAt(payload + Terminator, Terminator, i) || i == |payload|
    ensures Locate(prefix + Marker + payload + Terminator + suffix) == Some(payload)
  {
    var text := prefix + Marker + payload + Terminator + suffix;
    var start := |prefix|;
    var close := start + |Marker| + |payload|;
    assert text[start..start + |Marker|] == Marker;
    assert text[close..close + |Terminator|] == Terminator;
    forall i | 0 <= i < start ensures !OccursAt(text, Marker, i) {
      assert text[i..i + |Marker|] == (prefix + Marker)[i..i + |Marker|];
      assert !OccursAt(prefix + Marker, Marker, i);
    }
    forall j | start + |Marker| <= j < close ensures !OccursAt(text, Terminator, j) {
      var k := j - start - |Marker|;
      assert text[j..j + |Terminator|] == (payload + Terminator)[k..k + |Terminator|];
      assert !OccursAt(payload + Terminator, Terminator, k);
    }
    FindFromFinds(text, Marker, 0, start);
    FindFromFinds(text, Terminator, start + |Marker|, close);
    assert text[start + |Marker|..close] == payload;
  }
}
