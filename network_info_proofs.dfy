/** Properties of the reader of `ipconfig /all` output: cutting into blocks loses
    nothing and leaves no block that would be cut again, the dotted quads it finds
    have the shape of IPv4 addresses (and a lone one is found), the gateway and DNS
    choices, the field lines of a typical adapter block, and which blocks become
    records. */
module NetworkInfoProofs {
  import opened Text
  import opened NetworkInfo

  /* ---------------------------------------------------------------------------
     Blocks
     --------------------------------------------------------------------------- */

  /** Putting the blocks back together with the removed line breaks gives the output. */
  lemma {:induction false} SplitRejoins(s: string)
    ensures Interleave(Split(s), Breaks(s)) == s
    decreases |s|
  {
    match NextBreak(s, 0)
    case None =>
    case Some(k) =>
      var c := Cut(s, k);
      var e := k + 1;
      var t := s[e..];
      var b := s[..c];
      var sep := s[c..e];
      SplitStep(s, k, c, e);
      BreaksStep(s, k, c, e);
      SplitRejoins(t);
      InterleaveFirst(b, Split(t), sep, Breaks(t));
      ThreeParts(s, c, e);
  }

  lemma SplitStep(s: string, k: nat, c: nat, e: nat)
    requires NextBreak(s, 0) == Some(k) && c == Cut(s, k) && e == k + 1
    ensures Split(s) == [s[..c]] + Split(s[e..])
  {
  }

  lemma BreaksStep(s: string, k: nat, c: nat, e: nat)
    requires NextBreak(s, 0) == Some(k) && c == Cut(s, k) && e == k + 1
    ensures Breaks(s) == [s[c..e]] + Breaks(s[e..])
  {
    var sep := s[c..e];
    var t := s[e..];
    assert Breaks(s) == [sep] + Breaks(t);
  }

  /** Each separator removed is a line feed, with the carriage return before it if any. */
  lemma {:induction false} BreaksAreLineBreaks(s: string)
    ensures forall i :: 0 <= i < |Breaks(s)| ==> Breaks(s)[i] == "\n" || Breaks(s)[i] == "\r\n"
    decreases |s|
  {
    match NextBreak(s, 0)
    case None =>
    case Some(k) =>
      var t := s[k + 1..];
      BreaksAreLineBreaks(t);
      var sep := s[Cut(s, k)..k + 1];
      assert sep == "\n" || sep == "\r\n";
      assert Breaks(s) == [sep] + Breaks(t);
  }

  lemma InterleaveFirst(b: string, blocks: seq<string>, sep: string, seps: seq<string>)
    requires |blocks| == |seps| + 1
    ensures Interleave([b] + blocks, [sep] + seps) == b + sep + Interleave(blocks, seps)
  {
    assert ([b] + blocks)[1..] == blocks;
    assert ([sep] + seps)[1..] == seps;
  }

  lemma ThreeParts(s: string, i: nat, j: nat)
    requires i <= j <= |s|
    ensures s[..i] + s[i..j] + s[j..] == s
  {
  }

  /** The first colon of a line of a prefix of `s` is the first colon of that line
      of `s`. */
  lemma {:induction false} LineColonOfPrefix(s: string, m: nat, from: nat)
    requires from <= m <= |s| && LineColon(s[..m], from).Some?
    ensures LineColon(s, from) == LineColon(s[..m], from)
    decreases m - from
  {
    var t := s[..m];
    assert t[from] == s[from];
    if t[from] != ':' {
      LineColonOfPrefix(s, m, from + 1);
    }
  }

  /** The first block holds no place where it would be cut. */
  lemma FirstBlockUncut(s: string, k: nat)
    requires NextBreak(s, 0) == Some(k)
    ensures NextBreak(s[..Cut(s, k)], 0) == None
  {
    var c := Cut(s, k);
    var b := s[..c];
    NextBreakLeftmost(s, 0);
    forall j: nat | IsBreak(b, j)
      ensures IsBreak(s, j) && j < k
    {
      LineColonOfPrefix(s, c, j + 2);
    }
    NoBreakFrom(b, 0);
  }

  /** The cut `NextBreak` finds is the first one from `from`, and there is none when it
      finds none. */
  lemma {:induction false} NextBreakLeftmost(s: string, from: nat)
    ensures NextBreak(s, from).Some? ==> forall k :: from <= k < NextBreak(s, from).value ==> !IsBreak(s, k)
    ensures NextBreak(s, from).None? ==> forall k :: from <= k ==> !IsBreak(s, k)
    decreases |s| - from
  {
    if from < |s| && !IsBreak(s, from) {
      NextBreakLeftmost(s, from + 1);
    }
  }

  /** Without a place to cut from `from` on, `NextBreak` finds none. */
  lemma {:induction false} NoBreakFrom(s: string, from: nat)
    requires forall k :: from <= k ==> !IsBreak(s, k)
    ensures NextBreak(s, from) == None
    decreases |s| - from
  {
    if from < |s| {
      NoBreakFrom(s, from + 1);
    }
  }

  /** Splitting a block again gives the block itself. */
  lemma {:induction false} BlocksUncut(s: string)
    ensures forall i :: 0 <= i < |Split(s)| ==> Split(Split(s)[i]) == [Split(s)[i]]
    decreases |s|
  {
    match NextBreak(s, 0)
    case None =>
    case Some(k) =>
      FirstBlockUncut(s, k);
      var t := s[k + 1..];
      BlocksUncut(t);
      var blocks := Split(s);
      assert blocks == [s[..Cut(s, k)]] + Split(t);
      forall i | 0 <= i < |blocks|
        ensures Split(blocks[i]) == [blocks[i]]
      {
        if i > 0 {
          assert blocks[i] == Split(t)[i - 1];
        }
      }
  }

  /* ---------------------------------------------------------------------------
     Dotted quads
     --------------------------------------------------------------------------- */

  /** What `GroupsFrom` reads has the shape of dotted groups. */
  lemma {:induction false} GroupsFromShape(s: string, x: nat, left: nat)
    requires x <= |s| && GroupsFrom(s, x, left).Some?
    ensures DottedGroups(s, x, GroupsFrom(s, x, left).value, left)
    decreases left
  {
    var n := DigitRun(s, x);
    if left > 1 {
      GroupsFromShape(s, x + n + 1, left - 1);
      assert s[x + n + 1 - 1] == '.';
    }
  }

  /** Dotted groups that end where the digits end are read back by `GroupsFrom`. */
  lemma {:induction false} DottedGroupsRead(s: string, x: nat, e: nat, left: nat)
    requires x <= e && DottedGroups(s, x, e, left)
    requires e == |s| || !IsDigit(s[e])
    ensures GroupsFrom(s, x, left) == Some(e)
    decreases left
  {
    if left > 1 {
      var y := if GroupAndDot(s, x, x + 2) && DottedGroups(s, x + 2, e, left - 1) then x + 2
               else if GroupAndDot(s, x, x + 3) && DottedGroups(s, x + 3, e, left - 1) then x + 3
               else x + 4;
      DigitRunOfDigits(s, x, y - 1 - x);
      DottedGroupsRead(s, y, e, left - 1);
    }
  }

  /** Dotted groups depend only on their own characters. */
  lemma {:induction false} DottedGroupsMoved(s: string, x: nat, e: nat, left: nat, u: string, z: nat)
    requires x <= e && DottedGroups(s, x, e, left)
    requires z + (e - x) <= |u| && forall k :: x <= k < e ==> u[z + (k - x)] == s[k]
    ensures DottedGroups(u, z, z + (e - x), left)
    decreases left
  {
    if left > 1 {
      var y := if GroupAndDot(s, x, x + 2) && DottedGroups(s, x + 2, e, left - 1) then x + 2
               else if GroupAndDot(s, x, x + 3) && DottedGroups(s, x + 3, e, left - 1) then x + 3
               else x + 4;
      DottedGroupsMoved(s, y, e, left - 1, u, z + (y - x));
      assert u[z + (y - x) - 1] == s[y - 1];
      assert forall k :: z <= k < z + (y - x) - 1 ==> u[k] == s[x + (k - z)];
    } else {
      assert forall k :: z <= k < z + (e - x) ==> u[k] == s[x + (k - z)];
    }
  }

  /** The dotted groups of `s[x..e]` make `s[x..e]` a dotted quad. */
  lemma QuadSlice(s: string, x: nat, e: nat)
    requires x <= e && DottedGroups(s, x, e, 4)
    ensures IsDottedQuad(s[x..e])
  {
    DottedGroupsMoved(s, x, e, 4, s[x..e], 0);
  }

  /** Every dotted quad found has the shape of one. */
  lemma {:induction false} QuadsAreDotted(s: string, from: nat)
    requires from <= |s|
    ensures forall k :: 0 <= k < |QuadsFrom(s, from)| ==> IsDottedQuad(QuadsFrom(s, from)[k])
    decreases |s| - from
  {
    if from < |s| {
      match QuadAt(s, from)
      case Some(e) =>
        GroupsFromShape(s, from, 4);
        QuadSlice(s, from, e);
        QuadsAreDotted(s, e);
        assert QuadsFrom(s, from) == [s[from..e]] + QuadsFrom(s, e);
        DottedCons(s[from..e], QuadsFrom(s, e));
      case None =>
        QuadsAreDotted(s, from + 1);
    }
  }

  /** `re.findall` finds no dotted quad exactly when the pattern matches at no
      position. */
  lemma {:induction false} QuadsFromNone(s: string, from: nat)
    requires from <= |s|
    ensures QuadsFrom(s, from) == [] <==> forall p :: from <= p < |s| ==> QuadAt(s, p).None?
    decreases |s| - from
  {
    if from < |s| && QuadAt(s, from).None? {
      QuadsFromSkip(s, from);
      QuadsFromNone(s, from + 1);
    }
  }

  /** `re.findall` lists the matches left to right: it starts with the match at the
      first position where the pattern matches, then goes on from that match's end. */
  lemma QuadsFromFirst(s: string, from: nat)
    requires from <= |s|
    ensures QuadsFrom(s, from) != [] ==>
              exists p :: from <= p < |s| && QuadAt(s, p).Some?
                          && (forall k :: from <= k < p ==> QuadAt(s, k).None?)
                          && QuadsFrom(s, from) == [s[p..QuadAt(s, p).value]] + QuadsFrom(s, QuadAt(s, p).value)
  {
    if QuadsFrom(s, from) != [] {
      QuadsFromNone(s, from);
      var i :| from <= i < |s| && QuadAt(s, i).Some?;
      var p := LeastQuad(s, from, i);
      QuadsFromAt(s, from, p);
    }
  }

  /** The first position from `from` on where a quad matches, given one at `i`. */
  lemma LeastQuad(s: string, from: nat, i: nat) returns (p: nat)
    requires from <= i < |s| && QuadAt(s, i).Some?
    ensures from <= p <= i && QuadAt(s, p).Some?
    ensures forall k :: from <= k < p ==> QuadAt(s, k).None?
  {
    var hit := (k: nat) => k <= |s| && QuadAt(s, k).Some?;
    p := FirstHit(hit, from, i);
    forall k | from <= k < p
      ensures QuadAt(s, k).None?
    {
      assert !hit(k);
    }
  }

  /** `findall` passes the positions before the first match, then takes it. */
  lemma {:induction false} QuadsFromAt(s: string, from: nat, p: nat)
    requires from <= p < |s| && QuadAt(s, p).Some?
    requires forall k :: from <= k < p ==> QuadAt(s, k).None?
    ensures QuadsFrom(s, from) == [s[p..QuadAt(s, p).value]] + QuadsFrom(s, QuadAt(s, p).value)
    decreases p - from
  {
    if from < p {
      QuadsFromSkip(s, from);
      QuadsFromAt(s, from + 1, p);
    }
  }

  lemma QuadsFromSkip(s: string, from: nat)
    requires from < |s| && QuadAt(s, from).None?
    ensures QuadsFrom(s, from) == QuadsFrom(s, from + 1)
  {
  }

  lemma DottedCons(q: string, r: seq<string>)
    requires IsDottedQuad(q) && forall k :: 0 <= k < |r| ==> IsDottedQuad(r[k])
    ensures forall k :: 0 <= k < |[q] + r| ==> IsDottedQuad(([q] + r)[k])
  {
    forall k | 0 <= k < |[q] + r|
      ensures IsDottedQuad(([q] + r)[k])
    {
      if k > 0 {
        assert ([q] + r)[k] == r[k - 1];
      }
    }
  }

  /** A dotted quad on its own is found, as the only match. No group is compared
      with 255: `999.999.999.999` is found as well. */
  lemma LoneQuad(q: string)
    requires IsDottedQuad(q)
    ensures QuadsFrom(q, 0) == [q]
  {
    DottedGroupsRead(q, 0, |q|, 4);
    assert q[0..|q|] == q;
  }

  /** A dotted quad followed by a space, at the start of a text, is its first match. */
  lemma QuadFirst(q: string, tail: string)
    requires IsDottedQuad(q)
    ensures QuadsFrom(q + " " + tail, 0) != [] && QuadsFrom(q + " " + tail, 0)[0] == q
  {
    var t := q + " " + tail;
    DottedGroupsMoved(q, 0, |q|, 4, t, 0);
    DottedGroupsRead(t, 0, |q|, 4);
    assert t[0..|q|] == q;
  }

  /** The characters of dotted groups are digits and dots, the first one a digit. */
  lemma {:induction false} DottedGroupsChars(s: string, x: nat, e: nat, left: nat)
    requires x <= e && DottedGroups(s, x, e, left)
    ensures x < e && IsDigit(s[x])
    ensures forall k :: x <= k < e ==> IsDigit(s[k]) || s[k] == '.'
    decreases left
  {
    if left > 1 {
      var y := if GroupAndDot(s, x, x + 2) && DottedGroups(s, x + 2, e, left - 1) then x + 2
               else if GroupAndDot(s, x, x + 3) && DottedGroups(s, x + 3, e, left - 1) then x + 3
               else x + 4;
      DottedGroupsChars(s, y, e, left - 1);
    }
  }

  /* ---------------------------------------------------------------------------
     Gateway and DNS servers
     --------------------------------------------------------------------------- */

  /** The gateway is a dotted quad or empty. */
  lemma GatewayIsQuadOrEmpty(block: string)
    ensures Gateway(block) == "" || IsDottedQuad(Gateway(block))
  {
    match GatewaySearch(block, 0)
    case None =>
    case Some(groups) =>
      QuadsAreDotted(groups.0 + " " + groups.1, 0);
  }

  /** `re.search` of the gateway pattern takes the leftmost occurrence of the label,
      from `from` on, at which the whole pattern matches. */
  lemma GatewaySearchLeftmost(s: string, from: nat)
    ensures GatewaySearch(s, from).Some? ==>
              exists i :: from <= i && GatewayMatchAt(s, i) && GatewayAt(s, i) == GatewaySearch(s, from)
                          && forall j :: from <= j < i ==> !GatewayMatchAt(s, j)
  {
    if GatewaySearch(s, from).Some? {
      var i :| from <= i && GatewayMatchAt(s, i);
      var hit := (k: nat) => GatewayMatchAt(s, k);
      var m := FirstHit(hit, from, i);
      forall j | from <= j < m
        ensures !GatewayMatchAt(s, j)
      {
        assert !hit(j);
      }
      GatewaySearchAt(s, from, m);
    }
  }

  /** Conversely, the groups matched at the leftmost matching occurrence are the ones
      `re.search` returns. */
  lemma {:induction false} GatewaySearchAt(s: string, from: nat, i: nat)
    requires from <= i && GatewayMatchAt(s, i)
    requires forall j :: from <= j < i ==> !GatewayMatchAt(s, j)
    ensures GatewaySearch(s, from) == GatewayAt(s, i)
    decreases i - from
  {
    if from == i {
      GatewaySearchStops(s, i);
    } else {
      GatewaySearchPasses(s, from);
      GatewaySearchAt(s, from + 1, i);
    }
  }

  lemma GatewaySearchPasses(s: string, from: nat)
    requires from + |GatewayLabel| <= |s| && !GatewayMatchAt(s, from)
    ensures GatewaySearch(s, from) == GatewaySearch(s, from + 1)
  {
  }

  lemma GatewaySearchStops(s: string, i: nat)
    requires GatewayMatchAt(s, i)
    ensures GatewaySearch(s, i) == GatewayAt(s, i)
  {
  }

  /** A block holding the gateway line `默认网关 . . . : <quad>` and its line end, with
      no occurrence of the label before it, has that quad as its gateway. */
  lemma GatewayOfLine(block: string, before: string, pad: string, q: string, eol: string, rest: string)
    requires forall i :: 0 <= i < |pad| ==> IsFiller(pad[i])
    requires IsDottedQuad(q) && IsEol(eol)
    requires block == before + GatewayLabel + pad + q + eol + rest
    requires forall j :: 0 <= j < |before| ==> !OccursAt(block, GatewayLabel, j)
    ensures Gateway(block) == q
  {
    var i := |before|;
    var a := i + |GatewayLabel| + |pad|;
    var b := a + |q|;
    assert block[i..i + |GatewayLabel|] == GatewayLabel;
    assert forall k :: 0 <= k < |pad| ==> block[i + |GatewayLabel| + k] == pad[k];
    assert block[a..b] == q;
    assert block[b..b + |eol|] == eol;
    EolBreak(block, b, eol);
    GatewayAtLine(block, i, a, q);
  }

  /** `\r?\n` matches a line end. */
  lemma EolBreak(s: string, b: nat, eol: string)
    requires IsEol(eol) && b + |eol| <= |s| && s[b..b + |eol|] == eol
    ensures LineBreakAt(s, b) == Some(b + |eol|) && IsLineBreak(s[b])
  {
    assert s[b] == eol[0];
    if eol == "\r\n" {
      assert s[b + 1] == eol[1];
    }
  }

  /** The gateway of a block whose first gateway label, at `i`, is followed by filler
      up to `a`, and there by a dotted quad and a line break. */
  lemma GatewayAtLine(block: string, i: nat, a: nat, q: string)
    requires i + |GatewayLabel| <= a && a + |q| <= |block|
    requires OccursAt(block, GatewayLabel, i) && forall j :: 0 <= j < i ==> !OccursAt(block, GatewayLabel, j)
    requires forall k :: i + |GatewayLabel| <= k < a ==> IsFiller(block[k])
    requires IsDottedQuad(q) && block[a..a + |q|] == q
    requires LineBreakAt(block, a + |q|).Some? && IsLineBreak(block[a + |q|])
    ensures Gateway(block) == q
  {
    GatewayGroupsAtLine(block, i, a, q);
    var groups := GatewayAt(block, i).value;
    GatewaySearchAt(block, 0, i);
    QuadFirst(q, groups.1);
  }

  /** The first group of the gateway pattern is the quad; `[.\s:]*` stops at it. */
  lemma GatewayGroupsAtLine(block: string, i: nat, a: nat, q: string)
    requires i + |GatewayLabel| <= a && a + |q| <= |block|
    requires forall k :: i + |GatewayLabel| <= k < a ==> IsFiller(block[k])
    requires IsDottedQuad(q) && block[a..a + |q|] == q
    requires LineBreakAt(block, a + |q|).Some? && IsLineBreak(block[a + |q|])
    ensures GatewayAt(block, i).Some? && GatewayAt(block, i).value.0 == q
  {
    var q0 := i + |GatewayLabel|;
    QuadCharsAt(block, a, q);
    FillerRunIs(block, q0, a - q0);
    TextRunIs(block, a, |q|);
    assert q0 + FillerRun(block, q0) == a;
    GroupsAtBreak(block, q0, a, |q|);
    GatewayAtFiller(block, i, a);
  }

  /** The pattern's groups are those found where `[.\s:]*` stops. */
  lemma GatewayAtFiller(s: string, i: nat, a: nat)
    requires i + |GatewayLabel| <= a <= |s|
    requires i + |GatewayLabel| + FillerRun(s, i + |GatewayLabel|) == a
    ensures GatewayAt(s, i) == GatewayGroupsFrom(s, i + |GatewayLabel|, a)
  {
  }

  /** A dotted quad starts with a digit, which is not filler, and holds no line break. */
  lemma QuadCharsAt(block: string, a: nat, q: string)
    requires a + |q| <= |block| && IsDottedQuad(q) && block[a..a + |q|] == q
    ensures a < |block| && !IsFiller(block[a])
    ensures forall k :: a <= k < a + |q| ==> !IsLineBreak(block[k])
  {
    DottedGroupsChars(q, 0, |q|, 4);
    assert forall k :: a <= k < a + |q| ==> block[k] == q[k - a];
  }

  /** `[^\r\n]*` runs from `a` to a line break: the first group ends there. */
  lemma GroupsAtBreak(s: string, q: nat, a: nat, n: nat)
    requires q <= a && a + n <= |s| && TextRun(s, a) == n
    requires LineBreakAt(s, a + n).Some?
    ensures GatewayGroupsFrom(s, q, a) == Some((s[a..a + n], NextLineText(s, LineBreakAt(s, a + n).value)))
  {
  }

  lemma {:induction false} FillerRunIs(s: string, i: nat, n: nat)
    requires i + n <= |s| && forall k :: i <= k < i + n ==> IsFiller(s[k])
    requires i + n == |s| || !IsFiller(s[i + n])
    ensures FillerRun(s, i) == n
    decreases n
  {
    if n > 0 {
      FillerRunIs(s, i + 1, n - 1);
    }
  }

  lemma {:induction false} TextRunIs(s: string, i: nat, n: nat)
    requires i + n <= |s| && forall k :: i <= k < i + n ==> !IsLineBreak(s[k])
    requires i + n == |s| || IsLineBreak(s[i + n])
    ensures TextRun(s, i) == n
    decreases n
  {
    if n > 0 {
      TextRunIs(s, i + 1, n - 1);
    }
  }

  /** `re.findall` of IPv6 tokens lists them left to right: none exactly when no
      character is a hex digit or a colon; otherwise first the token at the first
      such character, then the tokens after its end. */
  lemma TokensFromFirst(s: string, from: nat)
    requires from <= |s|
    ensures TokensFrom(s, from) == [] <==> forall p :: from <= p < |s| ==> !IsHexOrColon(s[p])
    ensures TokensFrom(s, from) != [] ==>
              exists p :: from <= p < |s| && IsHexOrColon(s[p])
                          && (forall k :: from <= k < p ==> !IsHexOrColon(s[k]))
                          && TokensFrom(s, from) == [s[p..TokenEnd(s, p)]] + TokensFrom(s, TokenEnd(s, p))
  {
    TokensFromNone(s, from);
    if TokensFrom(s, from) != [] {
      var i :| from <= i < |s| && IsHexOrColon(s[i]);
      var hit := (k: nat) => k < |s| && IsHexOrColon(s[k]);
      var p := FirstHit(hit, from, i);
      forall k | from <= k < p
        ensures !IsHexOrColon(s[k])
      {
        assert !hit(k);
      }
      TokensFromAt(s, from, p);
    }
  }

  lemma {:induction false} TokensFromNone(s: string, from: nat)
    requires from <= |s|
    ensures TokensFrom(s, from) == [] <==> forall p :: from <= p < |s| ==> !IsHexOrColon(s[p])
    decreases |s| - from
  {
    if from < |s| && !IsHexOrColon(s[from]) {
      TokensFromNone(s, from + 1);
    }
  }

  /** `findall` passes the characters before the first token, then takes it. */
  lemma {:induction false} TokensFromAt(s: string, from: nat, p: nat)
    requires from <= p < |s| && IsHexOrColon(s[p])
    requires forall k :: from <= k < p ==> !IsHexOrColon(s[k])
    ensures TokensFrom(s, from) == [s[p..TokenEnd(s, p)]] + TokensFrom(s, TokenEnd(s, p))
    decreases p - from
  {
    if from < p {
      TokensFromAt(s, from + 1, p);
    }
  }

  /** The DNS servers: none without a DNS line; the first and the second dotted quad
      of the DNS text when it holds one, `""` for a missing second; its first and
      second IPv6 token otherwise, `""` for each missing one. */
  lemma DnsPrefersIpv4(block: string)
    ensures !Contains(block, DnsLabel) ==> DnsServers(block) == ("", "")
    ensures DnsText(block).Some? && QuadsFrom(DnsText(block).value, 0) != [] ==>
              var found := QuadsFrom(DnsText(block).value, 0);
              && DnsServers(block).0 == found[0]
              && IsDottedQuad(DnsServers(block).0)
              && (|found| >= 2 ==> DnsServers(block).1 == found[1])
              && (DnsServers(block).1 == "" <==> |found| == 1)
              && (DnsServers(block).1 == "" || IsDottedQuad(DnsServers(block).1))
    ensures DnsText(block).Some? && QuadsFrom(DnsText(block).value, 0) == [] ==>
              var found := TokensFrom(DnsText(block).value, 0);
              && (|found| >= 1 ==> DnsServers(block).0 == found[0])
              && (|found| >= 2 ==> DnsServers(block).1 == found[1])
              && (DnsServers(block).0 == "" <==> found == [])
              && (DnsServers(block).1 == "" <==> |found| <= 1)
  {
    match DnsText(block)
    case None =>
    case Some(text) =>
      QuadsAreDotted(text, 0);
  }

  /* ---------------------------------------------------------------------------
     The lines of an adapter block
     --------------------------------------------------------------------------- */

  /** The first colon of a line that has none before it. */
  lemma {:induction false} LineColonAt(s: string, from: nat, c: nat)
    requires from <= c < |s| && s[c] == ':'
    requires forall k :: from <= k < c ==> s[k] != ':' && s[k] != '\n'
    ensures LineColon(s, from) == Some(c)
    decreases c - from
  {
    if from < c {
      LineColonAt(s, from + 1, c);
    }
  }

  /** The header line of an adapter, `<name>:`, gives the name, stripped. */
  lemma NameOfHeader(block: string, head: string, rest: string)
    requires |head| >= 1 && forall i :: 0 <= i < |head| ==> head[i] != ':' && head[i] != '\n'
    requires block == head + ":" + rest
    ensures NameOf(block) == Some(Strip(head))
  {
    assert forall i :: 0 <= i < |head| ==> block[i] == head[i];
    LineColonAt(block, 1, |head|);
    assert block[..|head|] == head;
  }

  /** The colon `LineColon` finds is the first one of the line from `from`, and the
      line has none when it finds none. */
  lemma {:induction false} LineColonFirst(s: string, from: nat)
    requires from <= |s|
    ensures LineColon(s, from).Some? ==> forall k :: from <= k < LineColon(s, from).value ==> s[k] != ':'
    ensures LineColon(s, from).None? ==> forall k :: from <= k < LineEnd(s, from) ==> s[k] != ':'
    decreases |s| - from
  {
    if from < |s| && s[from] != '\n' && s[from] != ':' {
      LineColonFirst(s, from + 1);
    }
  }

  /** The name is the stripped text before the first colon of the first line, that
      colon not being the first character. */
  lemma NameOfMeaning(block: string)
    ensures NameOf(block).Some? ==>
              exists c :: 1 <= c < |block| && block[c] == ':'
                          && (forall k :: 0 <= k < c ==> block[k] != '\n')
                          && (forall k :: 1 <= k < c ==> block[k] != ':')
                          && NameOf(block).value == Strip(block[..c])
  {
    if NameOf(block).Some? {
      var c := LineColon(block, 1).value;
      LineColonFirst(block, 1);
      assert 1 <= c < |block| && block[c] == ':' && NameOf(block).value == Strip(block[..c]);
    }
  }

  /** `\s*(.+)` after a colon: the value is a line's text from a character reached
      over blanks only, and there is none exactly when only line feeds follow. */
  lemma TextAfterMeaning(s: string, c: nat)
    requires c < |s|
    ensures TextAfter(s, c).Some? ==>
              exists k :: c < k < |s| && Blank(s, c + 1, k) && TextAfter(s, c).value == s[k..LineEnd(s, k)]
    ensures TextAfter(s, c).None? <==> forall k :: c < k < |s| ==> s[k] == '\n'
  {
    var w := c + 1 + SpaceRun(s, c + 1);
    if w < |s| {
      assert Blank(s, c + 1, w);
    } else if LastOutside(s, c + 1, {'\n'}).Some? {
      assert Blank(s, c + 1, LastOutside(s, c + 1, {'\n'}).value);
    }
  }

  /** `\s*([0-9.]+)` after a colon: the value is the run of digits and dots at a
      character reached over blanks only, and there is none exactly when no such
      character is a digit or a dot. */
  lemma DottedAfterMeaning(s: string, c: nat)
    requires c < |s|
    ensures DottedAfter(s, c).Some? ==>
              exists k :: c < k < |s| && Blank(s, c + 1, k) && DottedAfter(s, c).value == s[k..k + DottedRun(s, k)]
    ensures DottedAfter(s, c).None? <==>
              forall k :: c < k < |s| && Blank(s, c + 1, k) ==> !IsDottedChar(s[k])
  {
    var w := c + 1 + SpaceRun(s, c + 1);
    if w < |s| && IsDottedChar(s[w]) {
      assert Blank(s, c + 1, w);
    } else {
      NoDottedAfter(s, c, w);
    }
  }

  /** When `\s*` stops short of a digit or a dot, no character reached over blanks is one. */
  lemma NoDottedAfter(s: string, c: nat, w: nat)
    requires c < |s| && w == c + 1 + SpaceRun(s, c + 1) && !(w < |s| && IsDottedChar(s[w]))
    ensures forall k :: c < k < |s| && Blank(s, c + 1, k) ==> !IsDottedChar(s[k])
  {
    forall k | c < k < |s| && Blank(s, c + 1, k)
      ensures !IsDottedChar(s[k])
    {
      if k < w {
        assert IsSpace(s[k]);
      }
    }
  }

  /** `\s*` takes the one space after a colon. */
  lemma OneSpace(s: string, c: nat)
    requires c + 2 < |s| && s[c + 1] == ' ' && !IsSpace(s[c + 2])
    ensures SpaceRun(s, c + 1) == 1
  {
  }

  /** After a colon and one space, `(.+)` takes the rest of the line. */
  lemma TextAfterOneSpace(s: string, c: nat, e: nat, g: string)
    requires c + 2 <= e < |s| && SpaceRun(s, c + 1) == 1
    requires LineEnd(s, c + 2) == e && s[c + 2..e] == g
    ensures ValueAfter(s, c, AnyText) == Some(g)
  {
  }

  /** `re.search` of a field takes the leftmost occurrence of the key, from `from` on,
      at which the whole pattern matches. */
  lemma FieldSearchLeftmost(s: string, key: string, from: nat, p: ValuePattern)
    ensures FieldSearch(s, key, from, p).Some? ==>
              exists i :: from <= i && FieldMatchAt(s, key, i, p)
                          && FieldAt(s, key, i, p) == FieldSearch(s, key, from, p)
                          && forall j :: from <= j < i ==> !FieldMatchAt(s, key, j, p)
  {
    if FieldSearch(s, key, from, p).Some? {
      var i :| from <= i && FieldMatchAt(s, key, i, p);
      var hit := (k: nat) => FieldMatchAt(s, key, k, p);
      var m := FirstHit(hit, from, i);
      forall j | from <= j < m
        ensures !FieldMatchAt(s, key, j, p)
      {
        assert !hit(j);
      }
      FieldSearchAt(s, key, from, m, p);
    }
  }

  /** Conversely, the value matched at the leftmost matching occurrence is the one
      `re.search` returns. */
  lemma {:induction false} FieldSearchAt(s: string, key: string, from: nat, i: nat, p: ValuePattern)
    requires from <= i && FieldMatchAt(s, key, i, p)
    requires forall j :: from <= j < i ==> !FieldMatchAt(s, key, j, p)
    ensures FieldSearch(s, key, from, p) == FieldAt(s, key, i, p)
    decreases i - from
  {
    if from == i {
      FieldSearchStops(s, key, i, p);
    } else {
      FieldSearchPasses(s, key, from, p);
      FieldSearchAt(s, key, from + 1, i, p);
    }
  }

  lemma FieldSearchPasses(s: string, key: string, from: nat, p: ValuePattern)
    requires from + |key| <= |s| && !FieldMatchAt(s, key, from, p)
    ensures FieldSearch(s, key, from, p) == FieldSearch(s, key, from + 1, p)
  {
  }

  lemma FieldSearchStops(s: string, key: string, i: nat, p: ValuePattern)
    requires FieldMatchAt(s, key, i, p)
    ensures FieldSearch(s, key, i, p) == FieldAt(s, key, i, p)
  {
  }

  /** A block whose key first occurs at `i` reads the value after the first colon
      of that line, when there is one. */
  lemma FieldAtFirst(s: string, key: string, i: nat, c: nat, p: ValuePattern, v: string)
    requires OccursAt(s, key, i) && forall j :: 0 <= j < i ==> !OccursAt(s, key, j)
    requires LineColon(s, i + |key|) == Some(c) && ValueAfter(s, c, p) == Some(v)
    ensures FieldSearch(s, key, 0, p) == Some(v)
  {
    assert FromColon(s, c, p) == Some(v);
    assert FieldAt(s, key, i, p) == Some(v);
    FieldSearchAt(s, key, 0, i, p);
  }

  /** A block holding the line `<key> . . . : <digits and dots>`, with no occurrence
      of the key before it, reads that value for the key (the IPv4 address and the
      subnet mask lines). */
  lemma DottedLine(block: string, before: string, key: string, pad: string, v: string, rest: string)
    requires forall i :: 0 <= i < |pad| ==> pad[i] != ':' && pad[i] != '\n'
    requires v != [] && forall i :: 0 <= i < |v| ==> IsDottedChar(v[i])
    requires rest == [] || !IsDottedChar(rest[0])
    requires forall i :: 0 <= i < |key| ==> key[i] != ':' && key[i] != '\n'
    requires block == before + key + pad + ": " + v + rest
    requires forall j :: 0 <= j < |before| ==> !OccursAt(block, key, j)
    ensures FieldSearch(block, key, 0, Dotted) == Some(v)
  {
    var i := |before|;
    var c := i + |key| + |pad|;
    assert block[i..i + |key|] == key;
    assert forall k :: 0 <= k < |pad| ==> block[i + |key| + k] == pad[k];
    LineColonAt(block, i + |key|, c);
    assert block[c + 1] == ' ' && block[c + 2..c + 2 + |v|] == v;
    assert rest != [] ==> block[c + 2 + |v|] == rest[0];
    DottedFieldAt(block, key, i, c, v);
  }

  /** The dotted field whose value follows the colon at `c` and a space. */
  lemma DottedFieldAt(block: string, key: string, i: nat, c: nat, v: string)
    requires OccursAt(block, key, i) && forall j :: 0 <= j < i ==> !OccursAt(block, key, j)
    requires LineColon(block, i + |key|) == Some(c)
    requires v != [] && forall k :: 0 <= k < |v| ==> IsDottedChar(v[k])
    requires c + 2 + |v| <= |block| && block[c + 1] == ' ' && block[c + 2..c + 2 + |v|] == v
    requires c + 2 + |v| == |block| || !IsDottedChar(block[c + 2 + |v|])
    ensures FieldSearch(block, key, 0, Dotted) == Some(v)
  {
    DottedRunOf(block, c + 2, v);
    DottedNotSpace(block[c + 2]);
    OneSpace(block, c);
    DottedAfterOneSpace(block, c, v);
    FieldAtFirst(block, key, i, c, Dotted, v);
  }

  /** After a colon and one space, `([0-9.]+)` takes the run of digits and dots. */
  lemma DottedAfterOneSpace(s: string, c: nat, v: string)
    requires c + 2 < |s| && SpaceRun(s, c + 1) == 1 && IsDottedChar(s[c + 2])
    requires DottedRun(s, c + 2) == |v| && s[c + 2..c + 2 + |v|] == v
    ensures ValueAfter(s, c, Dotted) == Some(v)
  {
  }

  /** A run of digits and dots `v` at `i`, followed by neither. */
  lemma DottedRunOf(s: string, i: nat, v: string)
    requires i + |v| <= |s| && s[i..i + |v|] == v
    requires forall k :: 0 <= k < |v| ==> IsDottedChar(v[k])
    requires i + |v| == |s| || !IsDottedChar(s[i + |v|])
    ensures DottedRun(s, i) == |v|
  {
    assert forall k :: i <= k < i + |v| ==> s[k] == v[k - i];
    DottedRunIs(s, i, |v|);
  }

  lemma {:induction false} DottedRunIs(s: string, i: nat, n: nat)
    requires i + n <= |s| && forall k :: i <= k < i + n ==> IsDottedChar(s[k])
    requires i + n == |s| || !IsDottedChar(s[i + n])
    ensures DottedRun(s, i) == n
    decreases n
  {
    if n > 0 {
      DottedRunIs(s, i + 1, n - 1);
    }
  }

  lemma DottedNotSpace(c: char)
    requires IsDottedChar(c)
    ensures !IsSpace(c)
  {
  }

  /** The two line ends a line of the output may have: the line feed that
      text-mode decoding leaves, or the Windows carriage return and line feed. */
  predicate IsEol(eol: string) {
    eol == "\n" || eol == "\r\n"
  }

  /** A block holding the line `<key> . . . : <text>` and its line end, with no
      occurrence of the key before it, reads that text for the key (the
      description, physical address and DHCP lines). After a Windows line end `.+`
      takes the carriage return too, which `strip` removes. */
  lemma TextLine(block: string, before: string, key: string, pad: string, v: string, eol: string, rest: string)
    requires forall i :: 0 <= i < |pad| ==> pad[i] != ':' && pad[i] != '\n'
    requires v != [] && !IsSpace(v[0]) && !IsSpace(v[|v| - 1])
    requires forall i :: 0 <= i < |v| ==> v[i] != '\n'
    requires forall i :: 0 <= i < |key| ==> key[i] != ':' && key[i] != '\n'
    requires IsEol(eol) && block == before + key + pad + ": " + v + eol + rest
    requires forall j :: 0 <= j < |before| ==> !OccursAt(block, key, j)
    ensures TextField(block, key) == Some(v)
  {
    var i := |before|;
    var c := i + |key| + |pad|;
    LineSlices(block, before + key + pad + ": ", v, eol, rest);
    HeadSlices(block, before, key, pad);
    LineColonAt(block, i + |key|, c);
    TextFieldAt(block, key, i, c, v, eol);
  }

  lemma LineSlices(block: string, head: string, v: string, eol: string, rest: string)
    requires block == head + v + eol + rest
    ensures block[..|head|] == head
    ensures block[|head|..|head| + |v|] == v && block[|head| + |v|..|head| + |v| + |eol|] == eol
  {
    assert block[..|head|] == (head + v)[..|head|];
    assert block[|head|..|head| + |v|] == (head + v)[|head|..];
    assert block[|head| + |v|..|head| + |v| + |eol|] == (head + v + eol)[|head| + |v|..];
  }

  /** The key, the padding and the `": "` at the start of a line's text. */
  lemma HeadSlices(block: string, before: string, key: string, pad: string)
    requires |before + key + pad + ": "| <= |block| && block[..|before + key + pad + ": "|] == before + key + pad + ": "
    ensures OccursAt(block, key, |before|)
    ensures forall k :: 0 <= k < |pad| ==> block[|before| + |key| + k] == pad[k]
    ensures block[|before| + |key| + |pad|] == ':' && block[|before| + |key| + |pad| + 1] == ' '
  {
    var h := before + key + pad + ": ";
    assert forall k :: 0 <= k < |h| ==> block[k] == h[k];
    assert block[|before|..|before| + |key|] == key;
  }

  /** The end of a line is its line feed. */
  lemma {:induction false} LineEndAt(s: string, i: nat, e: nat)
    requires i <= e < |s| && s[e] == '\n' && forall k :: i <= k < e ==> s[k] != '\n'
    ensures LineEnd(s, i) == e
    decreases e - i
  {
    if i < e {
      LineEndAt(s, i + 1, e);
    }
  }

  /** The text field whose value follows the colon at `c` and a space, and runs to a
      line end. */
  lemma TextFieldAt(block: string, key: string, i: nat, c: nat, v: string, eol: string)
    requires OccursAt(block, key, i) && forall j :: 0 <= j < i ==> !OccursAt(block, key, j)
    requires LineColon(block, i + |key|) == Some(c)
    requires v != [] && !IsSpace(v[0]) && !IsSpace(v[|v| - 1])
    requires forall i :: 0 <= i < |v| ==> v[i] != '\n'
    requires IsEol(eol) && c + 2 + |v| + |eol| <= |block|
    requires block[c + 1] == ' ' && block[c + 2..c + 2 + |v|] == v
    requires block[c + 2 + |v|..c + 2 + |v| + |eol|] == eol
    ensures TextField(block, key) == Some(v)
  {
    var cr := eol[..|eol| - 1];
    var e := c + 2 + |v| + |cr|;
    var g := v + cr;
    TextLineEnd(block, c, v, eol);
    OneSpace(block, c);
    TextAfterOneSpace(block, c, e, g);
    FieldAtFirst(block, key, i, c, AnyText, g);
    StripCarriageReturn(v, cr);
  }

  /** The line of a text without line feeds ends at the line feed of its line end,
      after the carriage return if there is one. */
  lemma TextLineEnd(block: string, c: nat, v: string, eol: string)
    requires forall i :: 0 <= i < |v| ==> v[i] != '\n'
    requires IsEol(eol) && c + 2 + |v| + |eol| <= |block| && block[c + 2..c + 2 + |v|] == v
    requires block[c + 2 + |v|..c + 2 + |v| + |eol|] == eol
    ensures LineEnd(block, c + 2) == c + 1 + |v| + |eol|
    ensures block[c + 2..c + 1 + |v| + |eol|] == v + eol[..|eol| - 1]
  {
    var b := c + 2 + |v|;
    var e := c + 1 + |v| + |eol|;
    forall k | c + 2 <= k < e
      ensures block[k] != '\n'
    {
      if k < b {
        assert block[k] == v[k - c - 2];
      } else {
        assert block[k] == eol[k - b];
      }
    }
    assert block[e] == eol[|eol| - 1];
    LineEndAt(block, c + 2, e);
    assert block[b..e] == eol[..|eol| - 1];
  }

  /** `strip` removes what `.+` takes of a line end, the carriage return of a Windows
      line end or nothing, after a text without surrounding blanks. */
  lemma StripCarriageReturn(v: string, cr: string)
    requires v != [] && !IsSpace(v[0]) && !IsSpace(v[|v| - 1])
    requires cr == "" || cr == "\r"
    ensures Strip(v + cr) == v
  {
    var g := v + cr;
    assert LeadingSpace(g) == 0;
    assert TrailingSpace(g) == |cr| by {
      if cr == "\r" {
        assert g[..|g| - 1] == v;
      }
    }
    assert g[0..] == g;
    assert g[0..|v|] == v;
  }

  /** The DHCP flag is `是` exactly when the DHCP line says `是`, and `否` for any
      other text; it is missing only when the block has no DHCP line with a value. */
  lemma DhcpFlagOfBlock(block: string)
    ensures ParseBlock(block).dhcpEnabled.None? <==> TextField(block, DhcpLabel).None?
    ensures ParseBlock(block).dhcpEnabled == Some(Yes) <==> TextField(block, DhcpLabel) == Some(Yes)
    ensures ParseBlock(block).dhcpEnabled == Some(No) <==>
              TextField(block, DhcpLabel).Some? && TextField(block, DhcpLabel) != Some(Yes)
  {
  }

  /* ---------------------------------------------------------------------------
     Records
     --------------------------------------------------------------------------- */

  /** The blocks kept are exactly the blocks that mention an adapter. */
  lemma {:induction false} AdapterBlocksMembers(blocks: seq<string>)
    ensures forall b :: b in AdapterBlocks(blocks) <==> b in blocks && Find(b, AdapterLabel)
  {
    if blocks != [] {
      var front := blocks[..|blocks| - 1];
      AdapterBlocksMembers(front);
      assert blocks == front + [blocks[|blocks| - 1]];
    }
  }

  /** Each record of the result is read from one block that mentions an adapter. */
  lemma RecordsFromAdapterBlocks(output: string, records: seq<Adapter>)
    requires records == ParseAll(AdapterBlocks(Split(output)))
    ensures forall i :: 0 <= i < |records| ==>
              exists b :: b in Split(output) && Find(b, AdapterLabel) && records[i] == ParseBlock(b)
  {
    var kept := AdapterBlocks(Split(output));
    AdapterBlocksMembers(Split(output));
    forall i | 0 <= i < |records|
      ensures exists b :: b in Split(output) && Find(b, AdapterLabel) && records[i] == ParseBlock(b)
    {
      assert kept[i] in kept;
    }
  }
}
