/** The reader of `ipconfig /all` output behind the network tool
    (`NetworkManager.get_network_info`): the output is cut into blocks at every line that
    starts flush left and holds a colon, the blocks that mention an adapter
    ("适配器") are kept, and from each of them a record of settings is read with
    regular expressions.

    Running `ipconfig /all` is left out: its standard output is the parameter of
    `GetNetworkInfo`. Every regular expression of the parser is written out below
    as a function that follows the way Python's `re` engine matches it, left to
    right and backtracking included; `.` matches everything but a line feed, and the
    classes `\s`, `\d` and `\w` are the ASCII ones of module `Text`. */
module NetworkInfo {
  import opened Text

  /** One adapter's settings. The keys that the parser adds only when their line is
      found are `Option`s; `gateway`, `dns1` and `dns2` are always present and are
      `""` when nothing was found. */
  datatype Adapter = Adapter(
    name: Option<string>,
    description: Option<string>,
    mac: Option<string>,
    dhcpEnabled: Option<string>,
    ipv4: Option<string>,
    netmask: Option<string>,
    gateway: string,
    dns1: string,
    dns2: string)

  /** The `RuntimeError` raised when `ipconfig` printed nothing. */
  datatype InfoError = NoOutput

  const AdapterLabel: string := "适配器"
  const DescriptionLabel: string := "描述"
  const MacLabel: string := "物理地址"
  const DhcpLabel: string := "DHCP 已启用"
  const Ipv4Label: string := "IPv4 地址"
  const NetmaskLabel: string := "子网掩码"
  const GatewayLabel: string := "默认网关"
  const DnsLabel: string := "DNS 服务器"
  const Yes: string := "是"
  const No: string := "否"

  /* ---------------------------------------------------------------------------
     Runs of characters
     --------------------------------------------------------------------------- */

  /** The end of the line holding index `i`: the first line feed at or after `i`, or
      the end of `s` (how far `.+` and `.*?` can reach). */
  function LineEnd(s: string, i: nat): (e: nat)
    requires i <= |s|
    decreases |s| - i
    ensures i <= e <= |s|
    ensures forall k :: i <= k < e ==> s[k] != '\n'
    ensures e < |s| ==> s[e] == '\n'
  {
    if i == |s| || s[i] == '\n' then i else LineEnd(s, i + 1)
  }

  predicate IsLineBreak(c: char) {
    c == '\r' || c == '\n'
  }

  /** The length of the run of characters other than `\r` and `\n` from `i`
      (what `[^\r\n]*` matches). */
  function TextRun(s: string, i: nat): (n: nat)
    requires i <= |s|
    decreases |s| - i
    ensures i + n <= |s|
    ensures forall k :: i <= k < i + n ==> !IsLineBreak(s[k])
    ensures i + n < |s| ==> IsLineBreak(s[i + n])
  {
    if i == |s| || IsLineBreak(s[i]) then 0 else 1 + TextRun(s, i + 1)
  }

  /** The length of the run of whitespace from `i` (what a greedy `\s*` takes). */
  function SpaceRun(s: string, i: nat): (n: nat)
    requires i <= |s|
    decreases |s| - i
    ensures i + n <= |s|
    ensures forall k :: i <= k < i + n ==> IsSpace(s[k])
    ensures i + n < |s| ==> !IsSpace(s[i + n])
  {
    if i == |s| || !IsSpace(s[i]) then 0 else 1 + SpaceRun(s, i + 1)
  }

  /** The characters of `[.\s:]`. */
  predicate IsFiller(c: char) {
    c == '.' || c == ':' || IsSpace(c)
  }

  /** The length of the run of `[.\s:]*` from `i`. */
  function FillerRun(s: string, i: nat): (n: nat)
    requires i <= |s|
    decreases |s| - i
    ensures i + n <= |s|
    ensures forall k :: i <= k < i + n ==> IsFiller(s[k])
    ensures i + n < |s| ==> !IsFiller(s[i + n])
  {
    if i == |s| || !IsFiller(s[i]) then 0 else 1 + FillerRun(s, i + 1)
  }

  /** The characters of `[0-9.]`. */
  predicate IsDottedChar(c: char) {
    IsDigit(c) || c == '.'
  }

  /** The length of the run of `[0-9.]+` from `i`. */
  function DottedRun(s: string, i: nat): (n: nat)
    requires i <= |s|
    decreases |s| - i
    ensures i + n <= |s|
    ensures forall k :: i <= k < i + n ==> IsDottedChar(s[k])
    ensures i + n < |s| ==> !IsDottedChar(s[i + n])
  {
    if i == |s| || !IsDottedChar(s[i]) then 0 else 1 + DottedRun(s, i + 1)
  }

  /** The characters of `[a-fA-F0-9:]`. */
  predicate IsHexOrColon(c: char) {
    IsDigit(c) || ('a' <= c <= 'f') || ('A' <= c <= 'F') || c == ':'
  }

  function HexRun(s: string, i: nat): (n: nat)
    requires i <= |s|
    decreases |s| - i
    ensures i + n <= |s|
    ensures forall k :: i <= k < i + n ==> IsHexOrColon(s[k])
    ensures i + n < |s| ==> !IsHexOrColon(s[i + n])
  {
    if i == |s| || !IsHexOrColon(s[i]) then 0 else 1 + HexRun(s, i + 1)
  }

  /** The last index at or after `from` whose character is not in `stop`: where a
      greedy `\s*` or `\s+` that ran to the end of `s` is given back to, when what
      follows it needs one character outside `stop`. */
  function LastOutside(s: string, from: nat, stop: set<char>): (r: Option<nat>)
    requires from <= |s|
    decreases |s| - from
    ensures r.Some? ==> from <= r.value < |s| && s[r.value] !in stop
    ensures r.Some? ==> forall k :: r.value < k < |s| ==> s[k] in stop
    ensures r.None? ==> forall k :: from <= k < |s| ==> s[k] in stop
  {
    if from == |s| then None
    else match LastOutside(s, from + 1, stop)
      case Some(k) => Some(k)
      case None => if s[from] !in stop then Some(from) else None
  }

  /** Every character of `s[i..j]` is whitespace. */
  predicate Blank(s: string, i: nat, j: nat)
    requires i <= j <= |s|
  {
    forall k :: i <= k < j ==> IsSpace(s[k])
  }

  /** The first colon from `from` on the same line (what `.*?:` stops at first). */
  function LineColon(s: string, from: nat): (r: Option<nat>)
    requires from <= |s|
    decreases |s| - from
    ensures r.Some? ==> from <= r.value < LineEnd(s, from) && s[r.value] == ':'
  {
    if from == |s| || s[from] == '\n' then None
    else if s[from] == ':' then Some(from)
    else LineColon(s, from + 1)
  }

  /* ---------------------------------------------------------------------------
     Cutting the output into blocks: re.split(r"\r?\n(?=\S.*?:)", output)
     --------------------------------------------------------------------------- */

  /** The lookahead `(?=\S.*?:)` holds at `q`: the line from `q` starts with a
      non-space character and holds a colon after that character. */
  predicate HeadLine(s: string, q: nat) {
    q < |s| && !IsSpace(s[q]) && LineColon(s, q + 1).Some?
  }

  /** The output is cut at the line feed at `k`. */
  predicate IsBreak(s: string, k: nat) {
    k < |s| && s[k] == '\n' && HeadLine(s, k + 1)
  }

  /** The first line feed at or after `from` where the output is cut. */
  function NextBreak(s: string, from: nat): (r: Option<nat>)
    decreases |s| - from
    ensures r.Some? ==> from <= r.value && IsBreak(s, r.value)
  {
    if from >= |s| then None
    else if IsBreak(s, from) then Some(from)
    else NextBreak(s, from + 1)
  }

  /** Where the block before the cut at `k` ends: `\r?` takes the carriage return
      in front of the line feed when there is one. */
  function Cut(s: string, k: nat): nat
    requires k < |s|
  {
    if k >= 1 && s[k - 1] == '\r' then k - 1 else k
  }

  /** The blocks of the output, in order. */
  function Split(s: string): (r: seq<string>)
    decreases |s|
    ensures |r| >= 1
  {
    match NextBreak(s, 0)
    case None => [s]
    case Some(k) => [s[..Cut(s, k)]] + Split(s[k + 1..])
  }

  /** The separators that `Split` removes, in order. */
  function Breaks(s: string): (r: seq<string>)
    decreases |s|
    ensures |r| == |Split(s)| - 1
  {
    match NextBreak(s, 0)
    case None => []
    case Some(k) => [s[Cut(s, k)..k + 1]] + Breaks(s[k + 1..])
  }

  /** The blocks put back together with the separators between them. */
  function Interleave(blocks: seq<string>, seps: seq<string>): string
    requires |blocks| == |seps| + 1
    decreases |seps|
  {
    if |seps| == 0 then blocks[0]
    else blocks[0] + seps[0] + Interleave(blocks[1..], seps[1..])
  }

  /* ---------------------------------------------------------------------------
     The adapter's name: re.match(r"(.+?):", block)
     --------------------------------------------------------------------------- */

  /** The text before the first colon of the block's first line, not counting a
      colon in the very first place (`.+?` needs one character), stripped; `None`
      when the first line has no such colon. */
  function NameOf(block: string): (r: Option<string>)
    ensures r.Some? <==> |block| > 0 && block[0] != '\n' && LineColon(block, 1).Some?
  {
    if |block| == 0 || block[0] == '\n' then None
    else match LineColon(block, 1)
      case None => None
      case Some(c) => Some(Strip(block[..c]))
  }

  /* ---------------------------------------------------------------------------
     Field lines: re.search(key + r".*?:\s*(.+)", block) and
                  re.search(key + r".*?:\s*([0-9.]+)", block)
     --------------------------------------------------------------------------- */

  /** What the group after `\s*` matches: `(.+)` or `([0-9.]+)`. */
  datatype ValuePattern = AnyText | Dotted

  /** `\s*(.+)` right after the colon at `c`. The greedy `\s*` stops at the first
      non-space character, whose line is the value; when only whitespace follows the
      colon, `\s*` gives characters back until `.` can take one, which leaves the
      last character after the colon that is not a line feed. */
  function TextAfter(s: string, c: nat): (r: Option<string>)
    requires c < |s|
    ensures r.Some? ==> r.value != [] && forall k :: 0 <= k < |r.value| ==> r.value[k] != '\n'
  {
    var w := c + 1 + SpaceRun(s, c + 1);
    if w < |s| then
      Some(s[w..LineEnd(s, w)])
    else match LastOutside(s, c + 1, {'\n'})
      case None => None
      case Some(k) => Some(s[k..LineEnd(s, k)])
  }

  /** `\s*([0-9.]+)` right after the colon at `c`: giving back whitespace never helps
      `[0-9.]`, so it matches exactly when the first non-space character after the
      colon is a digit or a dot, and takes the whole run of them. */
  function DottedAfter(s: string, c: nat): (r: Option<string>)
    requires c < |s|
    ensures r.Some? ==> r.value != [] && forall k :: 0 <= k < |r.value| ==> IsDottedChar(r.value[k])
  {
    var w := c + 1 + SpaceRun(s, c + 1);
    if w < |s| && IsDottedChar(s[w]) then Some(s[w..w + DottedRun(s, w)]) else None
  }

  function ValueAfter(s: string, c: nat, p: ValuePattern): (r: Option<string>)
    requires c < |s|
    ensures r.Some? ==> r.value != []
    ensures r.Some? && p == AnyText ==> forall k :: 0 <= k < |r.value| ==> r.value[k] != '\n'
    ensures r.Some? && p == Dotted ==> forall k :: 0 <= k < |r.value| ==> IsDottedChar(r.value[k])
  {
    match p
    case AnyText => TextAfter(s, c)
    case Dotted => DottedAfter(s, c)
  }

  /** The lazy `.*?` before the colon: the colons of the line are tried in turn,
      from the one at `c`, until the value pattern matches after one of them. */
  function FromColon(s: string, c: nat, p: ValuePattern): (r: Option<string>)
    requires c < |s|
    decreases |s| - c
    ensures r.Some? ==> r.value != []
    ensures r.Some? && p == AnyText ==> forall k :: 0 <= k < |r.value| ==> r.value[k] != '\n'
    ensures r.Some? && p == Dotted ==> forall k :: 0 <= k < |r.value| ==> IsDottedChar(r.value[k])
  {
    match ValueAfter(s, c, p)
    case Some(v) => Some(v)
    case None =>
      match LineColon(s, c + 1)
      case None => None
      case Some(d) => FromColon(s, d, p)
  }

  /** The pattern matched from the occurrence of the key at `i`. */
  function FieldAt(s: string, key: string, i: nat, p: ValuePattern): (r: Option<string>)
    requires i + |key| <= |s|
    ensures r.Some? ==> r.value != []
    ensures r.Some? && p == AnyText ==> forall k :: 0 <= k < |r.value| ==> r.value[k] != '\n'
    ensures r.Some? && p == Dotted ==> forall k :: 0 <= k < |r.value| ==> IsDottedChar(r.value[k])
  {
    match LineColon(s, i + |key|)
    case None => None
    case Some(c) => FromColon(s, c, p)
  }

  /** The key occurs at `i` and the whole pattern matches from there. */
  predicate FieldMatchAt(s: string, key: string, i: nat, p: ValuePattern) {
    OccursAt(s, key, i) && FieldAt(s, key, i, p).Some?
  }

  /** `re.search`: the group of the leftmost occurrence of the key, at or after
      `from`, from which the whole pattern matches. */
  function FieldSearch(s: string, key: string, from: nat, p: ValuePattern): (r: Option<string>)
    decreases |s| - from
    ensures r.Some? ==> r.value != []
    ensures r.Some? && p == AnyText ==> forall k :: 0 <= k < |r.value| ==> r.value[k] != '\n'
    ensures r.Some? && p == Dotted ==> forall k :: 0 <= k < |r.value| ==> IsDottedChar(r.value[k])
    ensures r.None? <==> forall i :: from <= i ==> !FieldMatchAt(s, key, i, p)
  {
    if from + |key| > |s| then None
    else if FieldMatchAt(s, key, from, p) then FieldAt(s, key, from, p)
    else FieldSearch(s, key, from + 1, p)
  }

  /** A text field (description, physical address, DHCP): the stripped group. */
  function TextField(block: string, key: string): Option<string> {
    match FieldSearch(block, key, 0, AnyText)
    case None => None
    case Some(v) => Some(Strip(v))
  }

  /** `"是" if value == "是" else "否"`. */
  function DhcpFlag(value: string): (r: string)
    ensures r == Yes || r == No
    ensures r == Yes <==> value == Yes
  {
    if value == Yes then Yes else No
  }

  /* ---------------------------------------------------------------------------
     Dotted quads: \b\d{1,3}(?:\.\d{1,3}){3}\b
     --------------------------------------------------------------------------- */

  /** `left` groups of one to three digits separated by dots, read from `x`; the end
      of the last group. A greedy `\d{1,3}` can only be followed by a dot when it took
      the whole run of digits, so each run must have one to three digits. */
  function GroupsFrom(s: string, x: nat, left: nat): (r: Option<nat>)
    requires x <= |s|
    decreases left
    ensures r.Some? ==> x < r.value <= |s|
  {
    var n := DigitRun(s, x);
    if n < 1 || n > 3 || left == 0 then None
    else if left == 1 then Some(x + n)
    else if x + n < |s| && s[x + n] == '.' then GroupsFrom(s, x + n + 1, left - 1)
    else None
  }

  /** A dotted quad matches at `p`: a word boundary before it, four groups, and a word
      boundary after it. The end index of the match. */
  function QuadAt(s: string, p: nat): (r: Option<nat>)
    requires p <= |s|
    ensures r.Some? ==> p < r.value <= |s|
  {
    if p > 0 && IsWordChar(s[p - 1]) then None
    else match GroupsFrom(s, p, 4)
      case None => None
      case Some(e) => if e < |s| && IsWordChar(s[e]) then None else Some(e)
  }

  /** `re.findall` of dotted quads from `from`: the matches, left to right, each search
      going on after the end of the previous match. */
  function QuadsFrom(s: string, from: nat): (r: seq<string>)
    requires from <= |s|
    decreases |s| - from
  {
    if from == |s| then []
    else match QuadAt(s, from)
      case Some(e) => [s[from..e]] + QuadsFrom(s, e)
      case None => QuadsFrom(s, from + 1)
  }

  /** `s[x..y]` is one to three digits and a dot. */
  ghost predicate GroupAndDot(s: string, x: nat, y: nat) {
    x + 2 <= y <= x + 4 && y <= |s| && s[y - 1] == '.' && forall k :: x <= k < y - 1 ==> IsDigit(s[k])
  }

  /** `s[x..e]` is `left` groups of one to three digits with a dot between
      neighbours: the shape of a dotted quad when `left` is 4 (no group is checked
      against 255). */
  ghost predicate DottedGroups(s: string, x: nat, e: nat, left: nat)
    decreases left
  {
    && x < e <= |s|
    && if left <= 1 then
         left == 1 && x + 1 <= e <= x + 3 && forall k :: x <= k < e ==> IsDigit(s[k])
       else
         || (GroupAndDot(s, x, x + 2) && DottedGroups(s, x + 2, e, left - 1))
         || (GroupAndDot(s, x, x + 3) && DottedGroups(s, x + 3, e, left - 1))
         || (GroupAndDot(s, x, x + 4) && DottedGroups(s, x + 4, e, left - 1))
  }

  ghost predicate IsDottedQuad(t: string) {
    DottedGroups(t, 0, |t|, 4)
  }

  /* ---------------------------------------------------------------------------
     IPv6 tokens: [a-fA-F0-9:]+(?:%[0-9]+)?
     --------------------------------------------------------------------------- */

  /** The end of the token that starts at `p`: the run of hex digits and colons, and a
      zone index `%` with its digits when one follows. */
  function TokenEnd(s: string, p: nat): (e: nat)
    requires p < |s| && IsHexOrColon(s[p])
    ensures p < e <= |s|
  {
    var e := p + HexRun(s, p);
    if e + 1 < |s| && s[e] == '%' && IsDigit(s[e + 1]) then e + 1 + DigitRun(s, e + 1) else e
  }

  /** `re.findall` of IPv6 tokens from `from`. */
  function TokensFrom(s: string, from: nat): (r: seq<string>)
    requires from <= |s|
    decreases |s| - from
    ensures forall k :: 0 <= k < |r| ==> r[k] != [] && IsHexOrColon(r[k][0])
  {
    if from == |s| then []
    else if IsHexOrColon(s[from]) then
      var e := TokenEnd(s, from);
      [s[from..e]] + TokensFrom(s, e)
    else TokensFrom(s, from + 1)
  }

  /* ---------------------------------------------------------------------------
     The default gateway:
     re.search(r"默认网关[.\s:]*([^\r\n]*)\r?\n(?:\s*([^\r\n]+))?", block)
     --------------------------------------------------------------------------- */

  /** `\r?\n` at `b`: the index after the line break there. */
  function LineBreakAt(s: string, b: nat): (r: Option<nat>)
    ensures r.Some? ==> b < r.value <= |s|
    ensures r.Some? ==> s[r.value - 1] == '\n'
  {
    if b + 1 < |s| && s[b] == '\r' && s[b + 1] == '\n' then Some(b + 2)
    else if b < |s| && s[b] == '\n' then Some(b + 1)
    else None
  }

  /** `(?:\s*([^\r\n]+))?` at `e`: the second group, or `""` (the default of
      `groups`) when the optional part is skipped. When the whitespace runs to the
      end, `\s*` gives back up to the last character that is not a line break. */
  function NextLineText(s: string, e: nat): (g: string)
    requires e <= |s|
    ensures forall k :: 0 <= k < |g| ==> !IsLineBreak(g[k])
  {
    var w := e + SpaceRun(s, e);
    if w < |s| then s[w..w + TextRun(s, w)]
    else match LastOutside(s, e, {'\r', '\n'})
      case None => ""
      case Some(k) => s[k..k + TextRun(s, k)]
  }

  /** The two groups of the gateway pattern when `[.\s:]*` stops at `a`: `[^\r\n]*`
      runs to the end of the line, which must be a line break. Otherwise the greedy
      `[.\s:]*` gives back one character at a time, down to `q`. */
  function GatewayGroupsFrom(s: string, q: nat, a: nat): (r: Option<(string, string)>)
    requires q <= a <= |s|
    decreases a
    ensures r.Some? ==> forall k :: 0 <= k < |r.value.0| ==> !IsLineBreak(r.value.0[k])
  {
    var b := a + TextRun(s, a);
    match LineBreakAt(s, b)
    case Some(e) => Some((s[a..b], NextLineText(s, e)))
    case None => if a == q then None else GatewayGroupsFrom(s, q, a - 1)
  }

  function GatewayAt(s: string, i: nat): Option<(string, string)>
    requires i + |GatewayLabel| <= |s|
  {
    var q := i + |GatewayLabel|;
    GatewayGroupsFrom(s, q, q + FillerRun(s, q))
  }

  /** The gateway label occurs at `i` and the whole pattern matches from there. */
  predicate GatewayMatchAt(s: string, i: nat) {
    OccursAt(s, GatewayLabel, i) && GatewayAt(s, i).Some?
  }

  /** `re.search` of the gateway pattern from `from`. */
  function GatewaySearch(s: string, from: nat): (r: Option<(string, string)>)
    decreases |s| - from
    ensures r.None? <==> forall i :: from <= i ==> !GatewayMatchAt(s, i)
  {
    if from + |GatewayLabel| > |s| then None
    else if GatewayMatchAt(s, from) then GatewayAt(s, from)
    else GatewaySearch(s, from + 1)
  }

  /** The first dotted quad in the two lines joined with a space, or `""`. */
  function Gateway(block: string): string {
    match GatewaySearch(block, 0)
    case None => ""
    case Some(groups) =>
      var found := QuadsFrom(groups.0 + " " + groups.1, 0);
      if found == [] then "" else found[0]
  }

  /* ---------------------------------------------------------------------------
     DNS servers:
     re.search(r"DNS 服务器[.\s:]*([^\r\n]*)((?:\r?\n\s+[^\r\n]+)*)", block)
     --------------------------------------------------------------------------- */

  /** `\s+[^\r\n]+` at `y`: the end of the indented line's text. */
  function IndentedLine(s: string, y: nat): (r: Option<nat>)
    requires y <= |s|
    ensures r.Some? ==> y < r.value <= |s|
  {
    var w := SpaceRun(s, y);
    if w == 0 then None
    else if y + w < |s| then Some(y + w + TextRun(s, y + w))
    else match LastOutside(s, y + 1, {'\r', '\n'})
      case None => None
      case Some(k) => Some(k + TextRun(s, k))
  }

  /** Where the greedy `(?:\r?\n\s+[^\r\n]+)*` from `x` stops. */
  function ContinuationEnd(s: string, x: nat): (e: nat)
    requires x <= |s|
    decreases |s| - x
    ensures x <= e <= |s|
  {
    match LineBreakAt(s, x)
    case None => x
    case Some(y) =>
      match IndentedLine(s, y)
      case None => x
      case Some(z) => ContinuationEnd(s, z)
  }

  /** Group 1 and group 2 of `<key>[.\s:]*([^\r\n]*)((?:\r?\n\s+[^\r\n]+)*)`
      joined: every part after the key can match empty, so the first occurrence of
      the key always matches, and the two groups are adjacent. */
  function ContinuedText(s: string, key: string): Option<string> {
    match IndexOf(s, key, 0)
    case None => None
    case Some(i) => Some(ContinuedFrom(s, i + |key|))
  }

  /** The two groups after the key, which ends at `q`. */
  function ContinuedFrom(s: string, q: nat): string
    requires q <= |s|
  {
    var a := q + FillerRun(s, q);
    var b := a + TextRun(s, a);
    s[a..ContinuationEnd(s, b)]
  }

  /** The pattern matches exactly when the key occurs. */
  lemma ContinuedTextFound(s: string, key: string)
    ensures ContinuedText(s, key).Some? <==> Contains(s, key)
  {
    match IndexOf(s, key, 0)
    case None =>
      assert forall i :: !OccursAt(s, key, i) by {
        assert forall i :: OccursAt(s, key, i) ==> 0 <= i;
      }
    case Some(i) =>
      assert OccursAt(s, key, i);
  }

  /** The text the DNS pattern captures. */
  function DnsText(s: string): (r: Option<string>)
    ensures r.Some? <==> Contains(s, DnsLabel)
  {
    ContinuedTextFound(s, DnsLabel);
    ContinuedText(s, DnsLabel)
  }

  /** The first two elements of `found`, `""` standing for a missing one. */
  function FirstTwo(found: seq<string>): (r: (string, string))
    ensures |found| >= 1 ==> r.0 == found[0]
    ensures |found| >= 2 ==> r.1 == found[1]
    ensures |found| == 0 ==> r.0 == ""
    ensures |found| <= 1 ==> r.1 == ""
  {
    (if |found| >= 1 then found[0] else "", if |found| >= 2 then found[1] else "")
  }

  /** The two DNS servers: the first two dotted quads of the DNS text, and only when
      it holds none, its first two IPv6 tokens. */
  function DnsServers(block: string): (string, string) {
    match DnsText(block)
    case None => ("", "")
    case Some(text) =>
      var v4 := QuadsFrom(text, 0);
      if v4 != [] then FirstTwo(v4) else FirstTwo(TokensFrom(text, 0))
  }

  /* ---------------------------------------------------------------------------
     One block, and the whole output
     --------------------------------------------------------------------------- */

  /** The settings read from one adapter block. */
  function ParseBlock(block: string): (a: Adapter)
    ensures a.name == NameOf(block)
    ensures a.dhcpEnabled.Some? ==> a.dhcpEnabled.value == Yes || a.dhcpEnabled.value == No
    ensures a.ipv4.Some? ==> a.ipv4 == FieldSearch(block, Ipv4Label, 0, Dotted)
    ensures a.gateway == Gateway(block)
    ensures (a.dns1, a.dns2) == DnsServers(block)
  {
    var dhcp := TextField(block, DhcpLabel);
    var dns := DnsServers(block);
    Adapter(
      name := NameOf(block),
      description := TextField(block, DescriptionLabel),
      mac := TextField(block, MacLabel),
      dhcpEnabled := if dhcp.Some? then Some(DhcpFlag(dhcp.value)) else None,
      ipv4 := FieldSearch(block, Ipv4Label, 0, Dotted),
      netmask := FieldSearch(block, NetmaskLabel, 0, Dotted),
      gateway := Gateway(block),
      dns1 := dns.0,
      dns2 := dns.1)
  }

  /** The blocks that mention an adapter, in order. */
  function AdapterBlocks(blocks: seq<string>): (r: seq<string>)
    ensures |r| <= |blocks|
  {
    if blocks == [] then []
    else
      var front := AdapterBlocks(blocks[..|blocks| - 1]);
      if Find(blocks[|blocks| - 1], AdapterLabel) then front + [blocks[|blocks| - 1]] else front
  }

  /** The positions of the blocks `AdapterBlocks` keeps, in the same order. */
  function AdapterIndices(blocks: seq<string>): (idx: seq<nat>)
    ensures forall j :: 0 <= j < |idx| ==> idx[j] < |blocks|
  {
    if blocks == [] then []
    else
      var front := AdapterIndices(blocks[..|blocks| - 1]);
      if Find(blocks[|blocks| - 1], AdapterLabel) then front + [|blocks| - 1] else front
  }

  /** The filter keeps the blocks that mention an adapter, each once and in their
      order: the kept blocks are those at strictly increasing positions, which are
      exactly the positions of blocks that mention `适配器`. */
  lemma AdapterBlocksIndexed(blocks: seq<string>)
    ensures |AdapterIndices(blocks)| == |AdapterBlocks(blocks)|
    ensures forall j :: 0 <= j < |AdapterIndices(blocks)| ==>
              AdapterBlocks(blocks)[j] == blocks[AdapterIndices(blocks)[j]]
    ensures forall j1, j2 :: 0 <= j1 < j2 < |AdapterIndices(blocks)| ==>
              AdapterIndices(blocks)[j1] < AdapterIndices(blocks)[j2]
    ensures forall i :: 0 <= i < |blocks| ==> (i in AdapterIndices(blocks) <==> Find(blocks[i], AdapterLabel))
  {
    AdapterIndicesPick(blocks);
    AdapterIndicesAscending(blocks);
    AdapterIndicesExact(blocks);
  }

  /** What sits at each kept position is the kept block. */
  lemma {:induction false} AdapterIndicesPick(blocks: seq<string>)
    ensures |AdapterIndices(blocks)| == |AdapterBlocks(blocks)|
    ensures forall j :: 0 <= j < |AdapterIndices(blocks)| ==>
              AdapterBlocks(blocks)[j] == blocks[AdapterIndices(blocks)[j]]
  {
    if blocks != [] {
      var n := |blocks| - 1;
      var front := blocks[..n];
      AdapterIndicesPick(front);
      assert forall i :: 0 <= i < n ==> front[i] == blocks[i];
    }
  }

  /** The kept positions increase. */
  lemma {:induction false} AdapterIndicesAscending(blocks: seq<string>)
    ensures forall j1, j2 :: 0 <= j1 < j2 < |AdapterIndices(blocks)| ==>
              AdapterIndices(blocks)[j1] < AdapterIndices(blocks)[j2]
  {
    if blocks != [] {
      AdapterIndicesAscending(blocks[..|blocks| - 1]);
    }
  }

  /** The kept positions are those of the blocks that mention an adapter. */
  lemma {:induction false} AdapterIndicesExact(blocks: seq<string>)
    ensures forall i :: 0 <= i < |blocks| ==> (i in AdapterIndices(blocks) <==> Find(blocks[i], AdapterLabel))
  {
    if blocks != [] {
      var n := |blocks| - 1;
      var front := blocks[..n];
      AdapterIndicesExact(front);
      assert forall i :: 0 <= i < n ==> front[i] == blocks[i];
    }
  }

  function ParseAll(blocks: seq<string>): (r: seq<Adapter>)
    ensures |r| == |blocks|
    ensures forall i :: 0 <= i < |blocks| ==> r[i] == ParseBlock(blocks[i])
  {
    seq(|blocks|, i requires 0 <= i < |blocks| => ParseBlock(blocks[i]))
  }

  /** `get_network_info` after `ipconfig /all` printed `output`: an error when it
      printed nothing, and otherwise one record per adapter block, in the order of
      the blocks. */
  method GetNetworkInfo(output: string) returns (r: Result<seq<Adapter>, InfoError>)
    ensures r.Err? <==> output == []
    ensures r.Ok? ==> r.value == ParseAll(AdapterBlocks(Split(output)))
    ensures r.Ok? ==> |r.value| == |AdapterIndices(Split(output))|
    ensures r.Ok? ==> forall j :: 0 <= j < |r.value| ==>
              r.value[j] == ParseBlock(Split(output)[AdapterIndices(Split(output))[j]])
  {
    if output == [] {
      return Err(NoOutput);
    }
    var blocks := Split(output);
    var adapters: seq<Adapter> := [];
    var i := 0;
    while i < |blocks|
      invariant 0 <= i <= |blocks|
      invariant adapters == ParseAll(AdapterBlocks(blocks[..i]))
    {
      var block := blocks[i];
      KeepStep(blocks, i);
      if Find(block, AdapterLabel) {
        var info := ParseBlock(block);
        ParseAllSnoc(AdapterBlocks(blocks[..i]), block);
        adapters := adapters + [info];
      }
      i := i + 1;
    }
    assert blocks[..|blocks|] == blocks;
    RecordsIndexed(blocks);
    return Ok(adapters);
  }

  /** The `j`-th record is read from the `j`-th block that mentions `适配器`. */
  lemma RecordsIndexed(blocks: seq<string>)
    ensures |ParseAll(AdapterBlocks(blocks))| == |AdapterIndices(blocks)|
    ensures forall j :: 0 <= j < |AdapterIndices(blocks)| ==>
              ParseAll(AdapterBlocks(blocks))[j] == ParseBlock(blocks[AdapterIndices(blocks)[j]])
  {
    AdapterBlocksIndexed(blocks);
  }

  lemma KeepStep(blocks: seq<string>, i: nat)
    requires i < |blocks|
    ensures AdapterBlocks(blocks[..i + 1])
            == AdapterBlocks(blocks[..i]) + (if Find(blocks[i], AdapterLabel) then [blocks[i]] else [])
  {
    assert blocks[..i + 1][..i] == blocks[..i];
  }

  lemma ParseAllSnoc(blocks: seq<string>, block: string)
    ensures ParseAll(blocks + [block]) == ParseAll(blocks) + [ParseBlock(block)]
  {
  }
}
