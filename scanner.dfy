/**
 * The regular-expression searches the plugins run (`re.search(pattern, data, re.M)`
 * followed by `match.group(1)`), for the only pattern shape they use: an
 * optional line anchor `^`, a literal, one whitespace character (`\s`) or a
 * run of them (`\s+`), and a captured run of non-whitespace (`(\S+)`).
 */
module Scanner {
  import opened Wrappers
  import opened Text

  /** `^`-anchored or not, the literal, and whether `\s+` (true) or a single `\s` (false) follows it. */
  datatype Pattern = Pattern(lineStart: bool, literal: string, manySpaces: bool)

  /** `hostname\s(\S+)` */
  const HostnamePattern: Pattern := Pattern(false, "hostname", false)
  /** `^PDU model:\s+(\S+)` */
  const ModelPattern: Pattern := Pattern(true, "PDU model:", true)
  /** `^Running UPDU firmware:\s+(\S+)` */
  const FirmwarePattern: Pattern := Pattern(true, "Running UPDU firmware:", true)

  /** The end of the run, starting at `i`, of characters that are whitespace exactly when `space` is. */
  function RunEnd(data: string, i: nat, space: bool): (j: nat)
    requires i <= |data|
    ensures i <= j <= |data|
    ensures forall k :: i <= k < j ==> IsSpace(data[k]) == space
    ensures j < |data| ==> IsSpace(data[j]) != space
    decreases |data| - i
  {
    if i < |data| && IsSpace(data[i]) == space then RunEnd(data, i + 1, space) else i
  }

  /** Where the captured group would start if the literal occurs at `p` and whitespace follows it. */
  function GroupStart(pat: Pattern, data: string, p: nat): nat
    requires p + |pat.literal| < |data|
  {
    var q := p + |pat.literal|;
    if pat.manySpaces then RunEnd(data, q, true) else q + 1
  }

  /** The pattern matches at position `p` of `data` (multi-line mode: `^` holds after every newline). */
  predicate MatchesAt(pat: Pattern, data: string, p: nat) {
    && p <= |data|
    && (pat.lineStart ==> p == 0 || data[p - 1] == '\n')
    && OccursAt(data, pat.literal, p)
    && p + |pat.literal| < |data|
    && IsSpace(data[p + |pat.literal|])
    && GroupStart(pat, data, p) < |data|
    && !IsSpace(data[GroupStart(pat, data, p)])
  }

  /** The text of group 1 of a match at `p`: the whole run of non-whitespace after the spaces. */
  function Group(pat: Pattern, data: string, p: nat): (g: string)
    requires MatchesAt(pat, data, p)
    ensures |g| > 0 && forall k :: 0 <= k < |g| ==> !IsSpace(g[k])
    ensures var c := GroupStart(pat, data, p);
      && c + |g| <= |data| && data[c..c + |g|] == g
      && (c + |g| == |data| || IsSpace(data[c + |g|]))
  {
    var c := GroupStart(pat, data, p);
    data[c..RunEnd(data, c, false)]
  }

  /** `p` is where `re.search` reports the match: it matches there and nowhere before. */
  ghost predicate Leftmost(pat: Pattern, data: string, p: nat) {
    MatchesAt(pat, data, p) && forall q: nat :: q < p ==> !MatchesAt(pat, data, q)
  }

  /** The leftmost position at or after `from` where the pattern matches. */
  function Search(pat: Pattern, data: string, from: nat): (r: Option<nat>)
    requires from <= |data|
    ensures r.Some? ==> from <= r.value <= |data| && MatchesAt(pat, data, r.value)
    ensures r.Some? ==> forall q: nat :: from <= q < r.value ==> !MatchesAt(pat, data, q)
    ensures r.None? ==> forall q: nat :: from <= q <= |data| ==> !MatchesAt(pat, data, q)
    decreases |data| - from
  {
    if MatchesAt(pat, data, from) then Some(from)
    else if from == |data| then None
    else Search(pat, data, from + 1)
  }

  /**
   * `FactsBase.parse_facts` and the `re.search(...).group(1)` steps of
   * `get_device_info`: group 1 of the leftmost match, or None when there is none.
   */
  function ParseFacts(pat: Pattern, data: string): (r: Option<string>)
    ensures r.Some? <==> exists p: nat :: p <= |data| && MatchesAt(pat, data, p)
    ensures r.Some? ==> exists p: nat :: Leftmost(pat, data, p) && r.value == Group(pat, data, p)
  {
    match Search(pat, data, 0)
    case Some(p) => Some(Group(pat, data, p))
    case None => None
  }
}
