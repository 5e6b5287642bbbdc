/**
 * `_extract_json_anywhere` (content_engine.py): recover a JSON value from free-form
 * model output by four strategies tried in strict order: the whole text, a
 * ```json fence, a generic ``` fence, and a brace-depth scan from the first `{`.
 *
 * `json.loads` is the parameter `parse`; the two regular expressions are modelled
 * by first-occurrence searches. For `r"```json\s*(.*?)```"` under `re.S | re.I`
 * the leftmost match starts at the first "```json" (an occurrence without a closing
 * fence after it means no later occurrence has one either); `\s*` takes the whole
 * whitespace run and the lazy group ends at the first "```" after it.
 */
module JsonRecovery {
  import opened Wrappers
  import opened Text
  import opened PyJson

  /** `json.loads`: `None` when it raises. */
  type Parser = string -> Option<Json>

  /** "```" starts at position `i`. */
  predicate FenceAt(t: string, i: nat)
  {
    i + 3 <= |t| && t[i] == '`' && t[i + 1] == '`' && t[i + 2] == '`'
  }

  /** "```json" starts at position `i`, the letters matched case-insensitively the way
      Python's `re.IGNORECASE` does (which also lets U+017F LONG S stand for 's'). */
  predicate JsonLabelAt(t: string, i: nat)
  {
    FenceAt(t, i) && i + 7 <= |t|
    && t[i + 3] in "jJ" && t[i + 4] in "sS\U{17F}" && t[i + 5] in "oO" && t[i + 6] in "nN"
  }

  /** The first "```" at or after `from`. */
  function FirstFence(t: string, from: nat): (r: Option<nat>)
    ensures r.Some? ==> from <= r.value && FenceAt(t, r.value)
    ensures r.Some? ==> forall j :: from <= j < r.value ==> !FenceAt(t, j)
    ensures r.None? ==> forall j :: from <= j ==> !FenceAt(t, j)
    decreases |t| - from
  {
    if from + 3 > |t| then None
    else if FenceAt(t, from) then Some(from)
    else FirstFence(t, from + 1)
  }

  /** The first "```json" at or after `from`. */
  function FirstJsonLabel(t: string, from: nat): (r: Option<nat>)
    ensures r.Some? ==> from <= r.value && JsonLabelAt(t, r.value)
    ensures r.Some? ==> forall j :: from <= j < r.value ==> !JsonLabelAt(t, j)
    ensures r.None? ==> forall j :: from <= j ==> !JsonLabelAt(t, j)
    decreases |t| - from
  {
    if from + 7 > |t| then None
    else if JsonLabelAt(t, from) then Some(from)
    else FirstJsonLabel(t, from + 1)
  }

  /** The end of the whitespace run that starts at `i` (what `\s*` consumes). */
  function SkipSpace(t: string, i: nat): (j: nat)
    requires i <= |t|
    ensures i <= j <= |t| && (j == |t| || !IsSpace(t[j]))
    ensures forall k :: i <= k < j ==> IsSpace(t[k])
    decreases |t| - i
  {
    if i < |t| && IsSpace(t[i]) then SkipSpace(t, i + 1) else i
  }

  /** `re.search(r"```json\s*(.*?)```", t, re.S | re.I).group(1).strip()`, if it matches. */
  function LabelledFenceBody(t: string): Option<string>
  {
    match FirstJsonLabel(t, 0)
    case None => None
    case Some(i) =>
      var j := SkipSpace(t, i + 7);
      match FirstFence(t, j)
      case None => None
      case Some(e) => Some(Strip(t[j..e]))
  }

  /** `re.search(r"```\s*(.*?)```", t, re.S | re.I).group(1).strip()`, if it matches. */
  function GenericFenceBody(t: string): Option<string>
  {
    match FirstFence(t, 0)
    case None => None
    case Some(i) =>
      var j := SkipSpace(t, i + 3);
      match FirstFence(t, j)
      case None => None
      case Some(e) => Some(Strip(t[j..e]))
  }

  /** Number of occurrences of `c` in `s`. */
  function Count(s: string, c: char): nat
  {
    if s == [] then 0 else Count(s[..|s| - 1], c) + (if s[|s| - 1] == c then 1 else 0)
  }

  /** Brace depth after reading `s`: opened minus closed. */
  function Depth(s: string): int
  {
    Count(s, '{') - Count(s, '}')
  }

  /** A balanced object candidate: as many `{` as `}`, and every proper non-empty
      prefix has more `{` than `}`. */
  predicate Balanced(s: string)
  {
    |s| > 0 && s[0] == '{' && Count(s, '{') == Count(s, '}')
    && forall k :: 0 < k < |s| ==> Count(s[..k], '{') > Count(s[..k], '}')
  }

  /** The shortest non-empty prefix of `s`, of length at most `n`, at which the depth is zero. */
  function FirstRebalance(s: string, n: nat): (r: Option<nat>)
    requires n <= |s|
    ensures r.Some? ==> 1 <= r.value <= n && Depth(s[..r.value]) == 0
    ensures r.Some? ==> forall k :: 1 <= k < r.value ==> Depth(s[..k]) != 0
    ensures r.None? ==> forall k :: 1 <= k <= n ==> Depth(s[..k]) != 0
  {
    if n == 0 then None
    else match FirstRebalance(s, n - 1)
      case Some(k) => Some(k)
      case None => if Depth(s[..n]) == 0 then Some(n) else None
  }

  /** The substring the brace scan hands to `json.loads`: from the first `{` of `c`
      to the first point where the depth is back to zero. */
  function BraceCandidate(c: string): Option<string>
  {
    match IndexOf(c, '{')
    case None => None
    case Some(start) =>
      match FirstRebalance(c[start..], |c| - start)
      case None => None
      case Some(k) => Some(c[start..start + k])
  }

  /** What `_extract_json_anywhere(text)` returns. `Some(JNull)` is a text that parses
      to JSON `null`, which Python also returns as `None`. */
  function Extracted(parse: Parser, text: string): Option<Json>
  {
    if parse(text).Some? then parse(text)
    else if LabelledFenceBody(text).Some? && parse(LabelledFenceBody(text).value).Some? then
      parse(LabelledFenceBody(text).value)
    else if GenericFenceBody(text).Some? && parse(GenericFenceBody(text).value).Some? then
      parse(GenericFenceBody(text).value)
    else match BraceCandidate(Strip(text))
      case None => None
      case Some(blob) => parse(blob)
  }

  // ----- properties of the strategy order -----

  /** A text that parses as a whole is returned as is, whatever JSON it is (a list,
      a number, `null`): no later strategy is tried. */
  lemma DirectParseWins(parse: Parser, text: string)
    requires parse(text).Some?
    ensures Extracted(parse, text) == parse(text)
  {
  }

  /** The ```json fence is tried before the generic one. */
  lemma LabelledFenceBeforeGeneric(parse: Parser, text: string, body: string)
    requires parse(text).None?
    requires LabelledFenceBody(text) == Some(body) && parse(body).Some?
    ensures Extracted(parse, text) == parse(body)
  {
  }

  /** A ```json fence whose interior does not parse falls through to the generic fence. */
  lemma LabelledFenceFallsThrough(parse: Parser, text: string, body: string, generic: string)
    requires parse(text).None?
    requires LabelledFenceBody(text) == Some(body) && parse(body).None?
    requires GenericFenceBody(text) == Some(generic) && parse(generic).Some?
    ensures Extracted(parse, text) == parse(generic)
  {
  }

  /** Completeness of the ```json strategy: when the whole text does not parse, a first
      "```json" label (no backtick before it), a whitespace run, then a body without
      backticks up to a closing "```" yields that body's parse once stripped. */
  lemma LabelledFenceRecovered(parse: Parser, t: string, i: nat, j: nat, e: nat)
    requires JsonLabelAt(t, i) && '`' !in t[..i]
    requires i + 7 <= j < |t| && !IsSpace(t[j]) && forall k :: i + 7 <= k < j ==> IsSpace(t[k])
    requires j <= e && FenceAt(t, e) && '`' !in t[j..e]
    requires parse(t).None? && parse(Strip(t[j..e])).Some?
    ensures Extracted(parse, t) == parse(Strip(t[j..e]))
  {
    FirstJsonLabelAt(t, i);
    SkipSpaceRun(t, i + 7, j);
    FirstFenceAt(t, j, e);
    assert LabelledFenceBody(t) == Some(Strip(t[j..e]));
  }

  /** Completeness of the generic strategy: with no "```json" label anywhere, a first
      "```", a whitespace run, then a body without backticks up to a closing "```"
      yields that body's parse once stripped. */
  lemma GenericFenceRecovered(parse: Parser, t: string, i: nat, j: nat, e: nat)
    requires forall k: nat :: !JsonLabelAt(t, k)
    requires FenceAt(t, i) && '`' !in t[..i]
    requires i + 3 <= j < |t| && !IsSpace(t[j]) && forall k :: i + 3 <= k < j ==> IsSpace(t[k])
    requires j <= e && FenceAt(t, e) && '`' !in t[j..e]
    requires parse(t).None? && parse(Strip(t[j..e])).Some?
    ensures Extracted(parse, t) == parse(Strip(t[j..e]))
  {
    NoLabelledFence(t);
    FirstFenceAt(t, 0, i);
    SkipSpaceRun(t, i + 3, j);
    FirstFenceAt(t, j, e);
    assert GenericFenceBody(t) == Some(Strip(t[j..e]));
  }

  /** Without any "```json" label the labelled strategy finds nothing. */
  lemma NoLabelledFence(t: string)
    requires forall k: nat :: !JsonLabelAt(t, k)
    ensures LabelledFenceBody(t).None?
  {
    assert FirstJsonLabel(t, 0).None?;
  }

  /** A "```" with no backtick between `from` and it is the first one found from `from`. */
  lemma FirstFenceAt(t: string, from: nat, i: nat)
    requires from <= i && FenceAt(t, i) && '`' !in t[from..i]
    ensures FirstFence(t, from) == Some(i)
  {
  }

  /** A "```json" with no backtick before it is the first label found. */
  lemma FirstJsonLabelAt(t: string, i: nat)
    requires JsonLabelAt(t, i) && '`' !in t[..i]
    ensures FirstJsonLabel(t, 0) == Some(i)
  {
  }

  /** `\s*` from `i` stops exactly at the first non-whitespace character. */
  lemma SkipSpaceRun(t: string, i: nat, j: nat)
    requires i <= j < |t| && !IsSpace(t[j]) && forall k :: i <= k < j ==> IsSpace(t[k])
    ensures SkipSpace(t, i) == j
  {
  }

  /** Once the scan is reached, its first candidate decides: a candidate that does not
      parse gives `None`, and no later `{` is tried. */
  lemma FirstCandidateDecides(parse: Parser, text: string, blob: string)
    requires parse(text).None?
    requires LabelledFenceBody(text).None? || parse(LabelledFenceBody(text).value).None?
    requires GenericFenceBody(text).None? || parse(GenericFenceBody(text).value).None?
    requires BraceCandidate(Strip(text)) == Some(blob)
    ensures Extracted(parse, text) == parse(blob)
    ensures parse(blob).None? ==> Extracted(parse, text).None?
  {
  }

  /** Without a `{`, or when the depth never returns to zero, the scan yields nothing. */
  lemma NoCandidate(c: string)
    ensures '{' !in c ==> BraceCandidate(c).None?
    ensures (forall k :: IndexOf(c, '{').Some? && IndexOf(c, '{').value < k <= |c|
               ==> Depth(c[IndexOf(c, '{').value..k]) != 0)
            ==> BraceCandidate(c).None?
  {
    if IndexOf(c, '{').Some? {
      var start := IndexOf(c, '{').value;
      var s := c[start..];
      var r := FirstRebalance(s, |c| - start);
      if r.Some? {
        assert s[..r.value] == c[start..start + r.value];
      }
    }
  }

  /** Before the depth first returns to zero it stays positive, because it starts at
      one and moves by at most one per character. */
  lemma {:induction false} PositiveBeforeRebalance(s: string, r: nat, k: nat)
    requires 1 <= k < r <= |s| && s[0] == '{'
    requires forall j :: 1 <= j < r ==> Depth(s[..j]) != 0
    ensures Depth(s[..k]) > 0
    decreases k
  {
    if k == 1 {
      assert s[..1] == [] + ['{'];
      DepthSnoc([], '{');
    } else {
      PositiveBeforeRebalance(s, r, k - 1);
      assert s[..k] == s[..k - 1] + [s[k - 1]];
      DepthSnoc(s[..k - 1], s[k - 1]);
    }
  }

  /** The prefix of an opening brace up to its first rebalancing point is balanced. */
  lemma RebalancedPrefixBalanced(s: string, n: nat, r: nat)
    requires n <= |s| && s != [] && s[0] == '{' && FirstRebalance(s, n) == Some(r)
    ensures Balanced(s[..r])
  {
    var b := s[..r];
    forall k | 0 < k < |b|
      ensures Count(b[..k], '{') > Count(b[..k], '}')
    {
      PositiveBeforeRebalance(s, r, k);
      assert b[..k] == s[..k];
    }
  }

  /** The scan's candidate starts at the first `{` and is balanced. */
  lemma CandidateIsBalanced(c: string)
    requires BraceCandidate(c).Some?
    ensures IndexOf(c, '{').Some?
    ensures var start := IndexOf(c, '{').value; var b := BraceCandidate(c).value;
      start + |b| <= |c| && b == c[start..start + |b|] && Balanced(b)
  {
    var start := IndexOf(c, '{').value;
    var s := c[start..];
    var r := FirstRebalance(s, |c| - start).value;
    RebalancedPrefixBalanced(s, |c| - start, r);
    assert c[start..start + r] == s[..r];
  }

  /** Completeness of the scan: when the earlier strategies do not apply (no whole-text
      parse, no "```" anywhere), a stripped text made of a `{`-free prefix, a balanced
      object and anything after it yields exactly that object's parse. */
  lemma {:induction false} BareObjectRecovered(parse: Parser, text: string, pre: string, blob: string, post: string)
    requires parse(text).None?
    requires forall i :: 0 <= i < |text| ==> !FenceAt(text, i)
    requires Strip(text) == pre + blob + post && '{' !in pre && Balanced(blob)
    ensures Extracted(parse, text) == parse(blob)
  {
    assert FirstFence(text, 0).None?;
    assert FirstJsonLabel(text, 0).None?;
    CandidateOfBareObject(pre, blob, post);
  }

  /** The scan picks out a balanced object that follows a `{`-free prefix. */
  lemma CandidateOfBareObject(pre: string, blob: string, post: string)
    requires '{' !in pre && Balanced(blob)
    ensures BraceCandidate(pre + blob + post) == Some(blob)
  {
    var c := pre + blob + post;
    IndexOfAfterPrefix(pre, blob + post);
    assert c == pre + (blob + post);
    var s := c[|pre|..];
    assert s == blob + post;
    BalancedRebalances(blob, post);
    assert c[|pre|..|pre| + |blob|] == blob;
  }

  /** A balanced object first returns to depth zero at its own end. */
  lemma BalancedRebalances(blob: string, post: string)
    requires Balanced(blob)
    ensures FirstRebalance(blob + post, |blob + post|) == Some(|blob|)
  {
    var s := blob + post;
    forall k | 1 <= k < |blob|
      ensures Depth(s[..k]) != 0
    {
      assert s[..k] == blob[..k];
    }
    assert s[..|blob|] == blob;
    if |blob| > 1 {
      var r := FirstRebalance(s, |blob| - 1);
      assert r.None?;
    }
    assert FirstRebalance(s, |blob|) == Some(|blob|);
    FirstRebalanceExtends(s, |blob|, |s|);
  }

  lemma IndexOfAfterPrefix(pre: string, rest: string)
    requires '{' !in pre && rest != [] && rest[0] == '{'
    ensures IndexOf(pre + rest, '{') == Some(|pre|)
  {
    var t := pre + rest;
    assert t[|pre|] == '{';
    assert t[..|pre|] == pre;
    var r := IndexOf(t, '{');
    assert r.Some?;
  }

  // ----- the brace scan, as the source runs it -----

  lemma DepthSnoc(s: string, c: char)
    ensures Depth(s + [c]) == Depth(s) + (if c == '{' then 1 else if c == '}' then -1 else 0)
  {
    assert (s + [c])[..|s|] == s;
  }

  /** Once the shortest rebalancing prefix is found, a longer search finds the same one. */
  lemma {:induction false} FirstRebalanceExtends(s: string, k: nat, n: nat)
    requires k <= n <= |s|
    requires FirstRebalance(s, k).Some?
    ensures FirstRebalance(s, n) == FirstRebalance(s, k)
    decreases n
  {
    if n > k {
      FirstRebalanceExtends(s, k, n - 1);
    }
  }

  /** One more character of the scan: the depth moves by that character, and the first
      rebalancing point is either this one or still ahead. */
  lemma ScanStep(s: string, j: nat)
    requires j < |s| && FirstRebalance(s, j).None?
    ensures Depth(s[..j + 1]) == Depth(s[..j]) + (if s[j] == '{' then 1 else if s[j] == '}' then -1 else 0)
    ensures FirstRebalance(s, j + 1) == if Depth(s[..j + 1]) == 0 then Some(j + 1) else None
  {
    assert s[..j + 1] == s[..j] + [s[j]];
    DepthSnoc(s[..j], s[j]);
  }

  /** The brace-depth scan of `_extract_json_anywhere` over the stripped text: from
      the first `{`, count depth and stop where it first returns to zero. */
  method ScanFirstBalanced(candidate: string) returns (blob: Option<string>)
    ensures blob == BraceCandidate(candidate)
  {
    var found := IndexOf(candidate, '{');
    if found.None? {
      return None;
    }
    var start := found.value;
    var s := candidate[start..];
    var depth := 0;
    var j := 0;
    while j < |s|
      invariant j <= |s|
      invariant depth == Depth(s[..j])
      invariant j > 0 ==> depth > 0
      invariant FirstRebalance(s, j).None?
    {
      var ch := s[j];
      ScanStep(s, j);
      if ch == '{' {
        depth := depth + 1;
      } else if ch == '}' {
        depth := depth - 1;
        if depth == 0 {
          FirstRebalanceExtends(s, j + 1, |s|);
          assert s[..j + 1] == candidate[start..start + j + 1];
          return Some(s[..j + 1]);
        }
      }
      j := j + 1;
    }
    return None;
  }

  /** `_extract_json_anywhere`, strategy by strategy. */
  method ExtractJsonAnywhere(parse: Parser, text: string) returns (r: Option<Json>)
    ensures r == Extracted(parse, text)
  {
    // direct parse
    r := parse(text);
    if r.Some? {
      return;
    }
    // fenced code block ```json ... ```
    var fence := LabelledFenceBody(text);
    if fence.Some? {
      r := parse(fence.value);
      if r.Some? {
        return;
      }
    }
    // generic fenced code block
    fence := GenericFenceBody(text);
    if fence.Some? {
      r := parse(fence.value);
      if r.Some? {
        return;
      }
    }
    // best effort: the first balanced {...}; a blob that fails to parse ends the search
    var blob := ScanFirstBalanced(Strip(text));
    r := if blob.Some? then parse(blob.value) else None;
  }
}
