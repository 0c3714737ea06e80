/** The JSON-candidate extraction shared by the three edge functions: the
    regular expression ```` /```(?:json)?\s*([\s\S]*?)```/ ```` applied with
    `String.prototype.match`, falling back to the whole reply, then `trim`. */
module Fence {
  import opened Wrappers
  import opened Text

  /** Three backticks start at index `i`. */
  predicate IsFenceAt(s: string, i: int) {
    0 <= i && i + 3 <= |s| && s[i] == '`' && s[i + 1] == '`' && s[i + 2] == '`'
  }

  /** No fence starts inside `t`, even when a fence follows it: `t` has no
      three backticks in a row and does not end in a backtick the next fence
      would complete. Single and double backticks inside are allowed. */
  predicate NoFenceStartsIn(t: string) {
    forall k :: 0 <= k < |t| ==> !IsFenceAt(t + "```", k)
  }

  /** The first fence at or after `i`: where the lazy `([\s\S]*?)` stops. */
  function NextFence(s: string, i: nat): (r: Option<nat>)
    requires i <= |s|
    ensures r.Some? ==> i <= r.value && IsFenceAt(s, r.value)
    ensures r.Some? ==> forall k :: i <= k < r.value ==> !IsFenceAt(s, k)
    ensures r.None? ==> forall k :: i <= k ==> !IsFenceAt(s, k)
    decreases |s| - i
  {
    if i + 3 > |s| then None
    else if IsFenceAt(s, i) then Some(i)
    else NextFence(s, i + 1)
  }

  /** Starting the search anywhere in a fence-free stretch finds the same fence. */
  lemma {:induction false} NextFenceSkip(s: string, i: nat, g: nat)
    requires i <= g <= |s|
    requires forall k :: i <= k < g ==> !IsFenceAt(s, k)
    ensures NextFence(s, i) == NextFence(s, g)
    decreases g - i
  {
    if i < g {
      NextFenceSkip(s, i + 1, g);
    }
  }

  /** The `json` tag sits right after the opening fence at `p`. */
  predicate TaggedAt(s: string, p: nat)
    requires p + 3 <= |s|
  {
    StartsWith(s[p + 3..], "json")
  }

  /** Where the captured group starts for an opening fence at `p`: past the
      `json` tag whenever it is there (the `?` is greedy) and past the longest
      white-space run (the `\s*` is greedy). These are the regex engine's
      first choices; `AlternativesAgree` shows backtracking never changes the
      outcome. */
  function GroupStart(s: string, p: nat): (g: nat)
    requires IsFenceAt(s, p)
    ensures p + 3 <= g <= |s|
    ensures forall k :: p + 3 <= k < g ==> s[k] != '`'
  {
    if TaggedAt(s, p) then
      assert s[p + 3..p + 7] == "json" by { assert s[p + 3..][..4] == s[p + 3..p + 7]; }
      assert forall k :: p + 3 <= k < p + 7 ==> s[k] == s[p + 3..p + 7][k - p - 3];
      SkipSpaces(s, p + 7)
    else SkipSpaces(s, p + 3)
  }

  /** The match attempted at `p`: the captured group, if it succeeds there. */
  function MatchAt(s: string, p: nat): (r: Option<string>)
  {
    if !IsFenceAt(s, p) then None
    else
      var g := GroupStart(s, p);
      match NextFence(s, g)
      case None => None
      case Some(j) => Some(s[g..j])
  }

  /** An opening fence at `p` with a closing fence somewhere after it. */
  ghost predicate ClosedFenceAt(s: string, p: int) {
    IsFenceAt(s, p) && exists j :: p + 3 <= j && IsFenceAt(s, j)
  }

  /** The attempt at `p` succeeds exactly when the fence there is closed
      later; what it captures runs up to the nearest closing fence. */
  lemma MatchAtSpec(s: string, p: nat)
    ensures MatchAt(s, p).Some? <==> ClosedFenceAt(s, p)
    ensures MatchAt(s, p).Some? ==>
      exists j :: IsFenceAt(s, j) && GroupStart(s, p) <= j && MatchAt(s, p).value == s[GroupStart(s, p)..j]
                  && forall k :: GroupStart(s, p) <= k < j ==> !IsFenceAt(s, k)
  {
    if ClosedFenceAt(s, p) {
      var j :| p + 3 <= j && IsFenceAt(s, j);
      var g := GroupStart(s, p);
      assert s[j] == '`';
      assert g <= j;
    }
  }

  /** Any other start for the captured group that the engine could back-track
      to (before the greedy choice, after the opening fence) finds the same
      closing fence, so backtracking cannot turn a failure into a match. */
  lemma AlternativesAgree(s: string, p: nat, g': nat)
    requires IsFenceAt(s, p) && p + 3 <= g' <= GroupStart(s, p)
    ensures NextFence(s, g') == NextFence(s, GroupStart(s, p))
  {
    NextFenceSkip(s, g', GroupStart(s, p));
  }

  /** The leftmost index at or after `p` where the regex matches. */
  function LeftmostMatch(s: string, p: nat): (r: Option<nat>)
    requires p <= |s| + 1
    ensures r.Some? ==> p <= r.value && ClosedFenceAt(s, r.value)
    ensures r.Some? ==> forall k :: p <= k < r.value ==> !ClosedFenceAt(s, k)
    ensures r.None? ==> forall k :: p <= k ==> !ClosedFenceAt(s, k)
    decreases |s| + 1 - p
  {
    MatchAtSpec(s, p);
    if p + 3 > |s| then None
    else if MatchAt(s, p).Some? then Some(p)
    else LeftmostMatch(s, p + 1)
  }

  /** `content.match(regex)`: the captured group of the leftmost match. */
  function FirstMatch(s: string): (r: Option<string>)
    ensures r.Some? <==> exists p :: ClosedFenceAt(s, p)
  {
    match LeftmostMatch(s, 0)
    case None => None
    case Some(p) => MatchAtSpec(s, p); MatchAt(s, p)
  }

  /** The text handed to `JSON.parse`: the trimmed inner text of the leftmost
      closed fence, or the whole reply trimmed when there is none. */
  function Candidate(content: string): (r: string)
    ensures (forall p :: !ClosedFenceAt(content, p)) ==> r == Trim(content)
  {
    Trim(FirstMatch(content).GetOr(content))
  }

  /** `JSON.parse(candidate)` where `parse` is the parser and `None` means it
      threw; a missing reply makes `content.match` throw before parsing. */
  function Extract<J>(content: Option<string>, parse: string -> Option<J>): (r: Option<J>)
    ensures content.None? ==> r.None?
    ensures content.Some? ==> r == parse(Candidate(content.value))
  {
    match content
    case None => None
    case Some(c) => parse(Candidate(c))
  }
}

/** Properties of the extractor on replies of the shapes the prompts ask the
    model to avoid but that it commonly produces. */
module FenceProperties {
  import opened Wrappers
  import opened Text
  import opened Fence

  /** A fenced block with no fence before it: the leftmost match is that
      block. Single and double backticks may come first. */
  lemma LeftmostIsBlock(s: string, p: nat, j0: nat)
    requires IsFenceAt(s, p) && IsFenceAt(s, j0) && p + 3 <= j0
    requires forall k :: 0 <= k < p ==> !IsFenceAt(s, k)
    ensures LeftmostMatch(s, 0) == Some(p)
  {
    assert ClosedFenceAt(s, p);
    var r := LeftmostMatch(s, 0);
    assert r.Some?;
    assert r.value <= p;
  }

  /** The closing fence found from the group start is the one ending the body. */
  lemma ClosingIsBodyEnd(s: string, g: nat, j0: nat)
    requires g <= j0 && IsFenceAt(s, j0)
    requires forall k :: g <= k < j0 ==> !IsFenceAt(s, k)
    ensures NextFence(s, g) == Some(j0)
  {
    NextFenceSkip(s, g, j0);
  }

  /** A block whose body runs from `bodyStart` to a closing fence at `j0`,
      with no fence starting before the opening one or inside the body,
      yields its body trimmed. */
  lemma BlockCapture(s: string, p: nat, bodyStart: nat, j0: nat)
    requires IsFenceAt(s, p) && IsFenceAt(s, j0) && p + 3 <= bodyStart <= j0
    requires forall k :: 0 <= k < p ==> !IsFenceAt(s, k)
    requires forall k :: bodyStart <= k < j0 ==> !IsFenceAt(s, k)
    requires GroupStart(s, p) == SkipSpaces(s, bodyStart)
    ensures Candidate(s) == Trim(s[bodyStart..j0])
  {
    BlockMatch(s, p, bodyStart, j0);
    TrimSkipsLeadingSpace(s, bodyStart, GroupStart(s, p), j0);
  }

  /** The same block, before trimming: the match captures from the group
      start, past any leading white space, up to the closing fence. */
  lemma BlockMatch(s: string, p: nat, bodyStart: nat, j0: nat)
    requires IsFenceAt(s, p) && IsFenceAt(s, j0) && p + 3 <= bodyStart <= j0
    requires forall k :: 0 <= k < p ==> !IsFenceAt(s, k)
    requires forall k :: bodyStart <= k < j0 ==> !IsFenceAt(s, k)
    requires GroupStart(s, p) == SkipSpaces(s, bodyStart)
    ensures bodyStart <= GroupStart(s, p) <= j0
    ensures forall k :: bodyStart <= k < GroupStart(s, p) ==> IsSpace(s[k])
    ensures FirstMatch(s) == Some(s[GroupStart(s, p)..j0])
  {
    LeftmostIsBlock(s, p, j0);
    var g := GroupStart(s, p);
    assert !IsSpace(s[j0]);
    assert g <= j0;
    ClosingIsBodyEnd(s, g, j0);
  }

  /** A ```` ```json ```` block surrounded by prose yields its trimmed body,
      whatever prose follows it, as long as no fence starts in the prose
      before it or inside its body. */
  lemma TaggedBlock(prefix: string, body: string, suffix: string)
    requires NoFenceStartsIn(prefix) && NoFenceStartsIn(body)
    ensures Candidate(prefix + "```json" + body + "```" + suffix) == Trim(body)
  {
    var s := prefix + "```json" + body + "```" + suffix;
    var p := |prefix|;
    var j0 := p + 7 + |body|;
    Layout(prefix, "```json", body, suffix);
    assert s[p + 3..p + 7] == s[p..p + 7][3..] == "json";
    assert s[p + 3..][..4] == s[p + 3..p + 7];
    assert TaggedAt(s, p);
    assert s[p + 7..j0] == body;
    BlockCapture(s, p, p + 7, j0);
    assert Candidate(s) == Trim(s[p + 7..j0]);
  }

  /** Where the parts of `prefix + open + body + "```" + suffix` lie. */
  lemma Layout(prefix: string, open: string, body: string, suffix: string)
    requires |open| >= 3 && open[..3] == "```"
    requires NoFenceStartsIn(prefix) && NoFenceStartsIn(body)
    ensures var s := prefix + open + body + "```" + suffix;
      var p := |prefix|; var b := p + |open|; var j0 := b + |body|;
      && IsFenceAt(s, p) && IsFenceAt(s, j0)
      && (forall k :: 0 <= k < p ==> !IsFenceAt(s, k))
      && (forall k :: b <= k < j0 ==> !IsFenceAt(s, k))
      && s[b..j0] == body
      && s[p..b] == open
      && s[b..] == body + "```" + suffix
  {
    var head := prefix + open;
    var mid := head + body;
    var s := mid + "```" + suffix;
    var p := |prefix|;
    var b := p + |open|;
    var j0 := b + |body|;
    assert s[..j0] == mid;
    assert mid[..b] == head;
    assert s[..b] == head;
    assert s[..p] == prefix;
    assert s[p..p + 3] == head[p..p + 3] == open[..3];
    FenceFreeStretch(prefix, s, 0);
    assert s[p..b] == head[p..] == open;
    assert s[b..j0] == mid[b..] == body;
    assert s[j0..] == "```" + suffix;
    assert s[j0..j0 + 3] == "```";
    FenceFreeStretch(body, s, b);
    assert s[b..] == body + "```" + suffix;
  }

  /** A stretch `t` of `s` followed there by a fence has no fence starting
      inside it. */
  lemma FenceFreeStretch(t: string, s: string, at: nat)
    requires NoFenceStartsIn(t) && at + |t| + 3 <= |s|
    requires s[at..at + |t|] == t && s[at + |t|..at + |t| + 3] == "```"
    ensures forall k :: at <= k < at + |t| ==> !IsFenceAt(s, k)
  {
    var u := t + "```";
    assert s[at..at + |u|] == u;
    forall k | at <= k < at + |t|
      ensures !IsFenceAt(s, k)
    {
      assert !IsFenceAt(u, k - at);
      assert s[k] == u[k - at] && s[k + 1] == u[k + 1 - at] && s[k + 2] == u[k + 2 - at];
    }
  }

  /** An untagged ```` ``` ```` block does the same, provided its body does
      not itself begin with the letters `json` (the tag would be taken off). */
  lemma UntaggedBlock(prefix: string, body: string, suffix: string)
    requires NoFenceStartsIn(prefix) && NoFenceStartsIn(body) && !StartsWith(body, "json")
    ensures Candidate(prefix + "```" + body + "```" + suffix) == Trim(body)
  {
    var s := prefix + "```" + body + "```" + suffix;
    var p := |prefix|;
    var j0 := p + 3 + |body|;
    Layout(prefix, "```", body, suffix);
    NotTagged(body, suffix);
    assert s[p + 3..j0] == body;
    BlockCapture(s, p, p + 3, j0);
    assert Candidate(s) == Trim(s[p + 3..j0]);
  }

  /** A body that does not start with `json` is not tagged, even when it is
      shorter than the tag. */
  lemma NotTagged(body: string, suffix: string)
    requires !StartsWith(body, "json")
    ensures !StartsWith(body + "```" + suffix, "json")
  {
    var t := body + "```" + suffix;
    if |body| < 4 {
      assert t[|body|] == '`';
      assert "json"[|body|] != '`';
    } else {
      assert t[..4] == body[..4];
    }
  }

  /** The tag is taken off even when nothing separates it from the body:
      ```` ```jsonfoo``` ```` yields `foo`, and ```` ```json5 {…}``` ````
      yields `5 {…}`. */
  lemma TagNeedsNoSeparator(body: string)
    requires NoFenceStartsIn(body) && body != [] && !IsSpace(body[0]) && !IsSpace(body[|body| - 1])
    ensures Candidate("```json" + body + "```") == body
  {
    assert "```json" + body + "```" == "" + "```json" + body + "```" + "";
    TaggedBlock("", body, "");
    TrimKeepsSpaceFreeEnds(body);
  }

  /** A reply with no fence in it is parsed whole, trimmed. */
  lemma BareReply(content: string)
    requires forall k :: 0 <= k < |content| ==> !IsFenceAt(content, k)
    ensures Candidate(content) == Trim(content)
  {
  }
}
