/**
 * `_parse_json_safe` (`domain/services/multi_agent_analyzer.py`): recover a JSON object from an
 * agent's free-text reply, trying the whole text, then a fenced ```json block, then the span from
 * the first `{` to the last `}`, and finally falling back to a fixed error record.
 *
 * JSON decoding itself is a parameter `decode`; it yields `None` where `json.loads` raises.
 */
module JsonParsing {
  import opened Wrappers
  import opened Values
  import Text

  const FenceOpen: string := "```json"
  const Fence: string := "```"

  /**
   * The text strategy 2 decodes: after the first "```json", up to the next "```" (or, with no
   * closing fence, up to the last character, as `text[start:-1]` does), stripped. `None` when the
   * text has no "```json" marker.
   */
  function FenceCandidate(text: string): (c: Option<string>)
    ensures c.Some? <==> Text.Contains(text, FenceOpen)
  {
    var marker := Text.Find(text, FenceOpen, 0);
    if marker == -1 then None
    else
      var start := marker + |FenceOpen|;
      Some(Text.Strip(Text.PySlice(text, start, Text.Find(text, Fence, start))))
  }

  /**
   * The fence candidate is a piece of the text lying after the opening marker, and it never
   * contains a fence itself: the slice stops at the first closing fence.
   */
  lemma {:induction false} FenceCandidateInside(text: string)
    requires Text.Contains(text, FenceOpen)
    ensures exists i :: Text.Find(text, FenceOpen, 0) + |FenceOpen| <= i && Text.SliceAt(text, FenceCandidate(text).value, i)
    ensures !Text.Contains(FenceCandidate(text).value, Fence)
  {
    var start := Text.Find(text, FenceOpen, 0) + |FenceOpen|;
    var end := Text.Find(text, Fence, start);
    var c := FenceCandidate(text).value;
    assert c == Text.Strip(Text.PySlice(text, start, end));
    var at := StrippedSliceAt(text, start, end, c);
    FenceSliceHasNoFence(text, start, end, c, at);
  }

  /**
   * The stripped slice `text[start:end]` sits in `text` at or after `start`, and before `end`
   * when `end` is a found index.
   */
  lemma {:induction false} StrippedSliceAt(text: string, start: nat, end: int, c: string) returns (at: int)
    requires start <= |text| && (end == -1 || start <= end <= |text|)
    requires c == Text.Strip(Text.PySlice(text, start, end))
    ensures Text.SliceAt(text, c, at) && start <= at
    ensures end != -1 ==> at + |c| <= end
  {
    var hi := if end == -1 then (if |text| == 0 then 0 else |text| - 1) else end;
    assert Text.SliceBound(|text|, start) == start;
    assert Text.SliceBound(|text|, end) == hi;
    if start <= hi {
      var slice := text[start..hi];
      assert Text.PySlice(text, start, end) == slice;
      assert c == Text.Strip(slice);
      var i := StripAt(slice);
      SliceOfSlice(text, start, hi, c, i);
      at := start + i;
    } else {
      assert Text.PySlice(text, start, end) == [];
      at := start;
    }
  }

  /** Where the stripped text sits in the original. */
  lemma {:induction false} StripAt(s: string) returns (i: int)
    ensures Text.SliceAt(s, Text.Strip(s), i)
  {
    i :| Text.SliceAt(s, Text.Strip(s), i);
  }

  lemma {:induction false} SliceOfSlice(s: string, lo: int, hi: int, r: string, i: int)
    requires 0 <= lo <= hi <= |s|
    requires Text.SliceAt(s[lo..hi], r, i)
    ensures Text.SliceAt(s, r, lo + i) && lo + i + |r| <= hi
  {
    assert forall k :: 0 <= k < |r| ==> r[k] == s[lo..hi][i + k] == s[lo + i + k];
  }

  /**
   * A piece of `text` lying at or after `start`, and (when a closing fence was found at `end`)
   * before it, cannot contain the fence: its first occurrence would be an earlier one.
   */
  lemma {:induction false} FenceSliceHasNoFence(text: string, start: nat, end: int, c: string, at: int)
    requires start <= |text|
    requires end == Text.Find(text, Fence, start)
    requires Text.SliceAt(text, c, at) && start <= at
    requires end != -1 ==> at + |c| <= end
    ensures !Text.Contains(c, Fence)
  {
    OccursInSlice(text, c, at, Fence, Text.Find(c, Fence, 0));
  }

  /** An occurrence inside a piece of `text` is an occurrence in `text`, shifted by where the piece sits. */
  lemma {:induction false} OccursInSlice(text: string, c: string, at: int, pat: string, k: int)
    requires Text.SliceAt(text, c, at)
    ensures Text.OccursAt(c, pat, k) ==> Text.OccursAt(text, pat, at + k)
  {
    if Text.OccursAt(c, pat, k) {
      assert forall m :: 0 <= m < |pat| ==> text[at + k + m] == c[k + m] == pat[m];
      assert text[at + k..at + k + |pat|] == pat;
    }
  }

  /**
   * The text strategy 3 decodes: from the first `{` through the last `}`, when the first `{`
   * comes before the last `}`.
   */
  function BraceCandidate(text: string): (c: Option<string>)
  {
    var start := Text.Find(text, "{", 0);
    var end := Text.RFind(text, "}") + 1;
    if start != -1 && end > start then Some(text[start..end]) else None
  }

  /** A single character occurs at `i` exactly when it is the character there. */
  lemma {:induction false} OccursAtChar(s: string, ch: char, i: int)
    ensures Text.OccursAt(s, [ch], i) <==> 0 <= i < |s| && s[i] == ch
  {
    if 0 <= i < |s| && s[i] == ch {
      assert s[i..i + 1] == [ch];
    }
  }

  /** Strategy 3 applies exactly when some `{` precedes some `}`. */
  lemma {:induction false} BraceCandidateWhen(text: string)
    ensures BraceCandidate(text).Some? <==> exists i, j :: 0 <= i < j < |text| && text[i] == '{' && text[j] == '}'
  {
    var start := Text.Find(text, "{", 0);
    var last := Text.RFind(text, "}");
    if exists i, j :: 0 <= i < j < |text| && text[i] == '{' && text[j] == '}' {
      var i, j :| 0 <= i < j < |text| && text[i] == '{' && text[j] == '}';
      OccursAtChar(text, '{', i);
      OccursAtChar(text, '}', j);
      assert start != -1 && start <= i;
      assert last >= j;
    }
    if start != -1 && last + 1 > start {
      OccursAtChar(text, '{', start);
      OccursAtChar(text, '}', last);
    }
  }

  /** Strategy 3's candidate starts at the first `{`, with `{`, and ends with `}`. */
  lemma {:induction false} BraceCandidateShape(text: string)
    ensures BraceCandidate(text).Some? ==>
      var c := BraceCandidate(text).value;
      |c| >= 2 && c[0] == '{' && c[|c| - 1] == '}' && Text.SliceAt(text, c, Text.Find(text, "{", 0))
  {
    var start := Text.Find(text, "{", 0);
    var last := Text.RFind(text, "}");
    if start != -1 && last + 1 > start {
      OccursAtChar(text, '{', start);
      OccursAtChar(text, '}', last);
      assert start < last;
      var c := text[start..last + 1];
      assert c[0] == text[start] && c[|c| - 1] == text[last];
    }
  }

  /** The strategies' inputs, in the order they are tried. */
  function Candidates(text: string): (cs: seq<string>)
    ensures |cs| >= 1 && cs[0] == text
  {
    [text]
    + ((match FenceCandidate(text) case Some(c) => [c] case None => [])
       + (match BraceCandidate(text) case Some(c) => [c] case None => []))
  }

  /** Strategy 4's record. */
  function Fallback(text: string, agentName: string): (r: Record)
    ensures r.Keys == {"error", "raw_response", "agent_score", "status"}
    ensures r["agent_score"] == VReal(5.0) && r["status"] == VStr("failed")
    ensures r["raw_response"].VStr? && |r["raw_response"].s| <= 500 && r["raw_response"].s <= text
  {
    map[
      "error" := VStr("JSON parsing failed for " + agentName),
      "raw_response" := VStr(Text.Truncate(text, 500)),
      "agent_score" := VReal(5.0),
      "status" := VStr("failed")]
  }

  /** The decoding of the first candidate that decodes, if any does. */
  function FirstDecoded(cs: seq<string>, decode: string -> Option<Record>): (r: Option<Record>)
    ensures r.Some? ==> exists k :: 0 <= k < |cs| && decode(cs[k]) == r && forall j :: 0 <= j < k ==> decode(cs[j]).None?
    ensures r.None? <==> forall k :: 0 <= k < |cs| ==> decode(cs[k]).None?
  {
    if |cs| == 0 then None
    else if decode(cs[0]).Some? then decode(cs[0])
    else
      var rest := FirstDecoded(cs[1..], decode);
      assert forall k :: 1 <= k < |cs| ==> cs[k] == cs[1..][k - 1];
      rest
  }

  /** Strategies 1 to 3: the record of the first that decodes, if any does. */
  function Strategies(text: string, decode: string -> Option<Record>): Option<Record>
  {
    match decode(text)
    case Some(d) => Some(d)
    case None =>
      var fromFence := match FenceCandidate(text) case Some(c) => decode(c) case None => None;
      if fromFence.Some? then fromFence
      else match BraceCandidate(text) case Some(c) => decode(c) case None => None
  }

  /**
   * `_parse_json_safe`: decode the whole text, else the fenced block, else the brace span, else
   * the fallback record; it never fails.
   */
  function ParseJsonSafe(text: string, agentName: string, decode: string -> Option<Record>): (r: Record)
    ensures decode(text).Some? ==> r == decode(text).value
    ensures decode(text).None? && FenceCandidate(text).None? && BraceCandidate(text).None? ==> r == Fallback(text, agentName)
  {
    match Strategies(text, decode)
    case Some(d) => d
    case None => Fallback(text, agentName)
  }

  /**
   * The parser returns the record of the first candidate text that decodes, tried in order, and
   * the fallback record exactly when none does.
   */
  lemma {:induction false} ParseJsonSafeTries(text: string, agentName: string, decode: string -> Option<Record>)
    ensures FirstDecoded(Candidates(text), decode).Some? ==>
      ParseJsonSafe(text, agentName, decode) == FirstDecoded(Candidates(text), decode).value
    ensures FirstDecoded(Candidates(text), decode).None? ==> ParseJsonSafe(text, agentName, decode) == Fallback(text, agentName)
  {
    StrategiesInOrder(text, decode);
  }

  /** The strategies try the candidates in order. */
  lemma {:induction false} StrategiesInOrder(text: string, decode: string -> Option<Record>)
    ensures Strategies(text, decode) == FirstDecoded(Candidates(text), decode)
  {
    var brace := match BraceCandidate(text) case Some(c) => [c] case None => [];
    FirstDecodedCons(text, Candidates(text)[1..], decode);
    if decode(text).None? {
      match FenceCandidate(text)
      case Some(f) =>
        FirstDecodedCons(f, brace, decode);
        if decode(f).None? {
          BraceDecoded(text, decode);
        }
      case None =>
        Text.EmptyConcat(brace);
        BraceDecoded(text, decode);
    }
  }

  /** Trying a candidate list: its head when that decodes, else the rest. */
  lemma {:induction false} FirstDecodedCons(x: string, rest: seq<string>, decode: string -> Option<Record>)
    ensures FirstDecoded([x] + rest, decode) == if decode(x).Some? then decode(x) else FirstDecoded(rest, decode)
  {
    Text.ConsTail(x, rest);
  }

  /** Trying the brace candidate alone. */
  lemma {:induction false} BraceDecoded(text: string, decode: string -> Option<Record>)
    ensures FirstDecoded(match BraceCandidate(text) case Some(c) => [c] case None => [], decode)
      == match BraceCandidate(text) case Some(c) => decode(c) case None => None
  {
    match BraceCandidate(text)
    case None =>
    case Some(c) =>
      Text.EmptyConcat([c]);
      FirstDecodedCons(c, [], decode);
  }
}
