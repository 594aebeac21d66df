/** An adapter block laid out as the Chinese edition of `ipconfig /all` prints it:
    the header line, blank lines, and field lines among which the seven that
    `ParseBlock` reads appear in the order Windows prints them, the other field
    lines holding none of their captions; the first DNS server ends the field lines,
    the second one follows on an indented line, and indented lines without digits
    (`TCPIP 上的 NetBIOS`) may follow it. Every line ends with `\n`, as text-mode
    decoding of the output leaves it, or with `\r\n`. For every such block the
    whole record is worked out. */
module NetworkListingProofs {
  import opened Text
  import opened NetworkInfo
  import opened NetworkInfoProofs
  import opened NetworkBlockProofs

  /** The labels in the order of their lines. */
  const Captions: seq<string> := [DescriptionLabel, MacLabel, DhcpLabel, Ipv4Label, NetmaskLabel, GatewayLabel, DnsLabel]

  /** No occurrence of `key` begins in a caption without its first character. */
  lemma NoStartWithout(caption: string, key: string)
    requires |key| >= 2 && key[0] !in caption
    ensures NoStartIn(caption, key)
  {
    forall i | 0 <= i < |caption|
      ensures caption[i] != key[0]
    {
      assert caption[i] in caption;
    }
  }

  /** Nor in one whose only such character is its first, followed by another
      character than the key's second. */
  lemma NoStartAfterHead(caption: string, key: string)
    requires |key| >= 2 && |caption| >= 2 && caption[1] != key[1] && key[0] !in caption[1..]
    ensures NoStartIn(caption, key)
  {
    forall i | 1 <= i < |caption|
      ensures caption[i] != key[0]
    {
      assert caption[i] == caption[1..][i - 1];
    }
  }

  lemma CaptionsAreLabels()
    ensures forall m :: 0 <= m < |Captions| ==> IsLabel(Captions[m])
  {
    assert IsLabel(DescriptionLabel);
    assert IsLabel(MacLabel);
    assert IsLabel(DhcpLabel);
    assert IsLabel(Ipv4Label);
    assert IsLabel(NetmaskLabel);
    assert IsLabel(GatewayLabel);
    assert IsLabel(DnsLabel);
  }

  /** No caption holds the beginning of a later one. */
  lemma CaptionsApart()
    ensures forall k, m :: 0 <= k < m < |Captions| ==> NoStartIn(Captions[k], Captions[m])
  {
    NoStartWithout(DescriptionLabel, MacLabel);
    NoStartWithout(DescriptionLabel, DhcpLabel);
    NoStartWithout(MacLabel, DhcpLabel);
    NoStartWithout(DescriptionLabel, Ipv4Label);
    NoStartWithout(MacLabel, Ipv4Label);
    NoStartWithout(DhcpLabel, Ipv4Label);
    NoStartWithout(DescriptionLabel, NetmaskLabel);
    NoStartWithout(MacLabel, NetmaskLabel);
    NoStartWithout(DhcpLabel, NetmaskLabel);
    NoStartWithout(Ipv4Label, NetmaskLabel);
    NoStartWithout(DescriptionLabel, GatewayLabel);
    NoStartWithout(MacLabel, GatewayLabel);
    NoStartWithout(DhcpLabel, GatewayLabel);
    NoStartWithout(Ipv4Label, GatewayLabel);
    NoStartWithout(NetmaskLabel, GatewayLabel);
    NoStartWithout(DescriptionLabel, DnsLabel);
    NoStartWithout(MacLabel, DnsLabel);
    assert DhcpLabel[1..] == "HCP 已启用";
    NoStartAfterHead(DhcpLabel, DnsLabel);
    NoStartWithout(Ipv4Label, DnsLabel);
    NoStartWithout(NetmaskLabel, DnsLabel);
    NoStartWithout(GatewayLabel, DnsLabel);
  }

  /** A text in which no caption occurs. */
  ghost predicate LabelFree(v: string) {
    forall m :: 0 <= m < |Captions| ==> !Contains(v, Captions[m])
  }

  /** No caption starts with a digit or a dot, so none occurs in a dotted value. */
  lemma DottedLabelFree(v: string)
    requires forall i :: 0 <= i < |v| ==> IsDottedChar(v[i])
    ensures LabelFree(v)
  {
    CaptionsAreLabels();
    CaptionHeads();
    forall m, i | 0 <= m < |Captions|
      ensures !OccursAt(v, Captions[m], i)
    {
      if 0 <= i < |v| {
        NotAtBy(v, Captions[m], i, 0);
      }
    }
  }

  lemma CaptionHeads()
    ensures forall m :: 0 <= m < |Captions| ==> !IsDottedChar(Captions[m][0])
  {
  }

  /** The settings an adapter block shows and how it is laid out: the header, the
      gap after the header line, the line end, all field lines down to the DNS line,
      the positions among them of the seven lines read, the IPv4 address's note
      such as `(首选)`, the indent of the second DNS server, and the lines after it. */
  datatype Listing = Listing(
    header: string,
    gap: string,
    eol: string,
    lines: seq<FieldLine>,
    at: seq<nat>,
    description: string,
    mac: string,
    dhcp: string,
    ipv4: string,
    ipv4Note: string,
    netmask: string,
    gateway: string,
    dns1: string,
    indent: string,
    dns2: string,
    trailer: seq<string>)

  /** The values of the seven lines read, in their order. */
  function Values(x: Listing): (vs: seq<string>)
    ensures |vs| == 7
  {
    [x.description, x.mac, x.dhcp, x.ipv4 + x.ipv4Note, x.netmask, x.gateway, x.dns1]
  }

  function FrameOf(x: Listing): Frame {
    Frame(x.header, x.gap, x.eol)
  }

  /** The second DNS server's line and the lines after it, each with its line end. */
  function TailOf(x: Listing): string {
    Lines([x.indent + x.dns2] + x.trailer, x.eol)
  }

  /** The block as printed. */
  function ListingText(x: Listing): string {
    BlockText(FrameOf(x), x.lines, TailOf(x))
  }

  predicate IsDottedText(v: string) {
    v != [] && forall i :: 0 <= i < |v| ==> IsDottedChar(v[i])
  }

  /** The seven lines read sit at strictly increasing positions, the DNS line last,
      each with its caption, a pad of dots and blanks and its value. */
  ghost predicate Placed(x: Listing) {
    && |x.at| == 7 && x.at[6] + 1 == |x.lines|
    && (forall m, n :: 0 <= m < n < 7 ==> x.at[m] < x.at[n])
    && forall m :: 0 <= m < 7 ==>
         x.at[m] < |x.lines| && x.lines[x.at[m]].caption == Captions[m]
         && IsPad(x.lines[x.at[m]].pad) && x.lines[x.at[m]].value == Values(x)[m]
  }

  /** A block as Windows prints it: a line end of either kind, a gap of blank lines,
      the seven lines read in place and no caption on any other line, a header
      without colon or line break, text values without blanks at their ends, an IPv4
      address and a netmask of digits and dots, quads for gateway and DNS servers,
      no caption inside the header or a text value, and indented lines without
      digits after the second DNS server. */
  ghost predicate WellFormed(x: Listing) {
    && Framed(FrameOf(x)) && Placed(x)
    && (forall k :: 0 <= k < |x.lines| && k !in x.at ==> LabelFree(LineBody(x.lines[k])))
    && |x.header| >= 1 && (forall i :: 0 <= i < |x.header| ==> x.header[i] != ':' && x.header[i] != '\n')
    && IsTextValue(x.description) && IsTextValue(x.mac) && IsTextValue(x.dhcp)
    && IsDottedText(x.ipv4) && (x.ipv4Note == [] || !IsDottedChar(x.ipv4Note[0]))
    && IsDottedText(x.netmask)
    && IsDottedQuad(x.gateway) && IsDottedQuad(x.dns1) && IsDottedQuad(x.dns2)
    && x.indent != [] && (forall k :: 0 <= k < |x.indent| ==> x.indent[k] == ' ')
    && (forall k :: 0 <= k < |x.trailer| ==> IsIndented(x.trailer[k]) && NoDigits(x.trailer[k]))
    && LabelFree(x.header) && LabelFree(x.description) && LabelFree(x.mac) && LabelFree(x.dhcp)
    && LabelFree(x.ipv4 + x.ipv4Note)
  }

  /** No caption occurs in any value of a well-formed block. */
  lemma ValuesLabelFree(x: Listing)
    requires WellFormed(x)
    ensures forall k :: 0 <= k < 7 ==> LabelFree(Values(x)[k])
  {
    DottedLabelFree(x.netmask);
    QuadLabelFree(x.gateway);
    QuadLabelFree(x.dns1);
  }

  lemma QuadLabelFree(q: string)
    requires IsDottedQuad(q)
    ensures LabelFree(q)
  {
    DottedGroupsChars(q, 0, |q|, 4);
    DottedLabelFree(q);
  }

  /** Each line read of a well-formed block is the first to hold its caption. */
  lemma ListingClean(x: Listing)
    requires WellFormed(x)
    ensures forall m :: 0 <= m < 7 ==> CleanAt(FrameOf(x), x.lines, x.at[m])
  {
    CaptionsAreLabels();
    CaptionsApart();
    ValuesLabelFree(x);
    forall m | 0 <= m < 7
      ensures CleanAt(FrameOf(x), x.lines, x.at[m])
    {
      ReadLineClean(x, m);
    }
  }

  lemma ReadLineClean(x: Listing, m: nat)
    requires WellFormed(x) && m < 7
    requires forall m :: 0 <= m < |Captions| ==> IsLabel(Captions[m])
    requires forall k, m :: 0 <= k < m < |Captions| ==> NoStartIn(Captions[k], Captions[m])
    requires forall k :: 0 <= k < 7 ==> LabelFree(Values(x)[k])
    ensures CleanAt(FrameOf(x), x.lines, x.at[m])
  {
    var key := Captions[m];
    forall k | 0 <= k < x.at[m]
      ensures LineClear(x.lines[k], key)
    {
      if k in x.at {
        var j :| 0 <= j < 7 && x.at[j] == k;
        assert j < m;
        assert !Contains(Values(x)[j], key);
      } else {
        assert LabelFree(LineBody(x.lines[k]));
      }
    }
  }

  /** Every setting of a well-formed block is read from its own line: the stripped
      header as the name, the three text values, the IPv4 address without its note,
      the netmask, the gateway and both DNS servers. */
  lemma ListingParse(x: Listing)
    requires WellFormed(x)
    ensures ParseBlock(ListingText(x)) ==
              Adapter(Some(Strip(x.header)), Some(x.description), Some(x.mac), Some(DhcpFlag(x.dhcp)),
                      Some(x.ipv4), Some(x.netmask), x.gateway, x.dns1, x.dns2)
  {
    ListingClean(x);
    ListingTexts(x);
    ListingDotted(x);
    ListingServers(x);
  }

  lemma ListingTexts(x: Listing)
    requires WellFormed(x) && forall m :: 0 <= m < 7 ==> CleanAt(FrameOf(x), x.lines, x.at[m])
    ensures NameOf(ListingText(x)) == Some(Strip(x.header))
    ensures TextField(ListingText(x), DescriptionLabel) == Some(x.description)
    ensures TextField(ListingText(x), MacLabel) == Some(x.mac)
    ensures TextField(ListingText(x), DhcpLabel) == Some(x.dhcp)
  {
    var f, ls, tail := FrameOf(x), x.lines, TailOf(x);
    assert ListingText(x) == BlockText(f, ls, tail);
    assert CleanAt(f, ls, x.at[0]) && CleanAt(f, ls, x.at[1]) && CleanAt(f, ls, x.at[2]);
    NameOfBlock(f, ls, tail);
    TextOfLine(f, ls, tail, x.at[0]);
    TextOfLine(f, ls, tail, x.at[1]);
    TextOfLine(f, ls, tail, x.at[2]);
  }

  lemma ListingDotted(x: Listing)
    requires WellFormed(x) && forall m :: 0 <= m < 7 ==> CleanAt(FrameOf(x), x.lines, x.at[m])
    ensures FieldSearch(ListingText(x), Ipv4Label, 0, Dotted) == Some(x.ipv4)
    ensures FieldSearch(ListingText(x), NetmaskLabel, 0, Dotted) == Some(x.netmask)
  {
    var f, ls, tail := FrameOf(x), x.lines, TailOf(x);
    assert ListingText(x) == BlockText(f, ls, tail);
    assert CleanAt(f, ls, x.at[3]) && CleanAt(f, ls, x.at[4]);
    DottedOfLine(f, ls, tail, x.at[3], x.ipv4, x.ipv4Note);
    var none: string := [];
    assert ls[x.at[4]].value == x.netmask + none;
    DottedOfLine(f, ls, tail, x.at[4], x.netmask, none);
  }

  lemma ListingServers(x: Listing)
    requires WellFormed(x) && forall m :: 0 <= m < 7 ==> CleanAt(FrameOf(x), x.lines, x.at[m])
    ensures Gateway(ListingText(x)) == x.gateway
    ensures DnsServers(ListingText(x)) == (x.dns1, x.dns2)
  {
    ListingGateway(x);
    ListingDns(x);
  }

  lemma ListingGateway(x: Listing)
    requires WellFormed(x) && forall m :: 0 <= m < 7 ==> CleanAt(FrameOf(x), x.lines, x.at[m])
    ensures Gateway(ListingText(x)) == x.gateway
  {
    var f, ls, tail := FrameOf(x), x.lines, TailOf(x);
    assert ListingText(x) == BlockText(f, ls, tail);
    var g := x.at[5];
    assert CleanAt(f, ls, g);
    assert ls[g].caption == GatewayLabel && ls[g].value == x.gateway;
    GatewayOfBlockLine(f, ls, tail, g);
  }

  lemma ListingDns(x: Listing)
    requires WellFormed(x) && forall m :: 0 <= m < 7 ==> CleanAt(FrameOf(x), x.lines, x.at[m])
    ensures DnsServers(ListingText(x)) == (x.dns1, x.dns2)
  {
    var f, ls := FrameOf(x), x.lines;
    var tail := Lines([x.indent + x.dns2] + x.trailer, f.eol);
    assert ListingText(x) == BlockText(f, ls, tail);
    var d := x.at[6];
    assert d == |ls| - 1 && CleanAt(f, ls, d);
    assert ls[d].caption == DnsLabel && ls[d].value == x.dns1;
    DnsOfLastLine(f, ls, x.indent, x.dns2, x.trailer);
  }

  /** A single IPv6 DNS server, and how the NetBIOS line that `ipconfig` prints after
      the DNS servers begins (`   TCPIP 上的 NetBIOS  . . . : 已启用`). */
  const Ipv6Server: string := "fe80::1"
  const NetBiosStart: string := "   TCPIP"

  /** With a single IPv6 DNS server the continuation `(?:\r?\n\s+[^\r\n]+)*` takes
      the NetBIOS line into the DNS text too. That text holds no dotted quad, so its
      IPv6 tokens are read, and the `C` of `TCPIP` becomes the second DNS server. */
  lemma NetBiosSecondServer(block: string, before: string, pad: string, eol: string, rest: string)
    requires IsPad(pad) && IsEol(eol) && IsIndented(NetBiosStart + rest) && NoDigits(rest)
    requires block == before + DnsLabel + pad + ": " + Ipv6Server + Continued([NetBiosStart + rest], eol) + eol
    requires forall j :: 0 <= j < |before| ==> !OccursAt(block, DnsLabel, j)
    ensures DnsServers(block) == (Ipv6Server, "C")
  {
    var line := NetBiosStart + rest;
    var u := Continued([line], eol);
    OneContinued(line, eol);
    assert forall k :: 0 <= k < |[line]| ==> IsIndented([line][k]);
    assert IsLineValue(Ipv6Server);
    ContinuedLines(block, before, DnsLabel, pad, Ipv6Server, eol, [line]);
    var t := Ipv6Server + u;
    assert DnsText(block) == Some(t);
    NetBiosNoDigits(eol, line, rest);
    NoQuadAfterServer(t, u);
    NetBiosTokens(t, u, eol, line, rest);
  }

  lemma OneContinued(line: string, eol: string)
    ensures Continued([line], eol) == eol + line
  {
    assert [line][1..] == [];
  }

  lemma NetBiosNoDigits(eol: string, line: string, rest: string)
    requires IsEol(eol) && NoDigits(rest) && line == NetBiosStart + rest
    ensures NoDigits(eol + line) && IsLineBreak((eol + line)[0])
  {
    assert eol + line == eol + NetBiosStart + rest;
    assert NoDigits(eol + NetBiosStart);
    NoDigitsJoin(eol + NetBiosStart, rest);
  }

  /** `fe80::1` followed by a line end and a text without digits holds no dotted quad. */
  lemma NoQuadAfterServer(t: string, u: string)
    requires t == Ipv6Server + u && NoDigits(u) && u != [] && IsLineBreak(u[0])
    ensures QuadsFrom(t, 0) == []
  {
    ServerNoQuad(t, u);
    assert forall k :: 7 <= k < |t| ==> t[k] == u[k - 7];
    QuadsSkipRun(t, 7, |t|);
  }

  /** The digits of `fe80::1` start no dotted quad: none is followed by a dot. */
  lemma ServerNoQuad(t: string, u: string)
    requires t == Ipv6Server + u && u != [] && IsLineBreak(u[0])
    ensures QuadsFrom(t, 0) == QuadsFrom(t, 7)
  {
    assert t[..7] == Ipv6Server && t[7] == u[0];
    assert t[1] == 'e' && t[2] == '8' && t[5] == ':' && t[6] == '1';
    QuadsSkipRun(t, 0, 2);
    assert IsWordChar(t[1]) && QuadAt(t, 2).None?;
    QuadsFromSkip(t, 2);
    assert IsWordChar(t[2]) && QuadAt(t, 3).None?;
    QuadsFromSkip(t, 3);
    QuadsSkipRun(t, 4, 6);
    assert DigitRun(t, 7) == 0 && DigitRun(t, 6) == 1 && GroupsFrom(t, 6, 4).None?;
    QuadsFromSkip(t, 6);
  }

  lemma NetBiosTokens(t: string, u: string, eol: string, line: string, rest: string)
    requires IsEol(eol) && t == Ipv6Server + u && u == eol + line && line == NetBiosStart + rest
    ensures |TokensFrom(t, 0)| >= 2 && TokensFrom(t, 0)[0] == Ipv6Server && TokensFrom(t, 0)[1] == "C"
  {
    ServerToken(t, u);
    var n := 7 + |eol|;
    NetBiosLayout(t, u, eol, line, rest, n);
    TcpipToken(t, n);
  }

  /** Where the line end and the start of the NetBIOS line lie. */
  lemma NetBiosLayout(t: string, u: string, eol: string, line: string, rest: string, n: nat)
    requires IsEol(eol) && t == Ipv6Server + u && u == eol + line && line == NetBiosStart + rest
    requires n == 7 + |eol|
    ensures n + 8 <= |t| && forall k :: 7 <= k < n ==> IsLineBreak(t[k])
    ensures forall k :: n <= k < n + 8 ==> t[k] == NetBiosStart[k - n]
  {
    assert forall k :: 7 <= k < |t| ==> t[k] == u[k - 7];
    assert forall k :: 0 <= k < 8 ==> line[k] == NetBiosStart[k];
  }

  /** The first token is the server. */
  lemma ServerToken(t: string, u: string)
    requires t == Ipv6Server + u && u != [] && IsLineBreak(u[0])
    ensures TokensFrom(t, 0) == [Ipv6Server] + TokensFrom(t, 7)
  {
    assert t[7] == u[0];
    assert HexRun(t, 7) == 0;
    assert HexRun(t, 6) == 1 && HexRun(t, 5) == 2 && HexRun(t, 4) == 3;
    assert HexRun(t, 3) == 4 && HexRun(t, 2) == 5 && HexRun(t, 1) == 6 && HexRun(t, 0) == 7;
    assert TokenEnd(t, 0) == 7 && t[0..7] == Ipv6Server;
    TokensFromAt(t, 0, 0);
  }

  /** After the line end, the first token is the `C` of `TCPIP`. */
  lemma TcpipToken(t: string, n: nat)
    requires 7 <= n && n + 8 <= |t| && forall k :: 7 <= k < n ==> IsLineBreak(t[k])
    requires forall k :: n <= k < n + 8 ==> t[k] == NetBiosStart[k - n]
    ensures TokensFrom(t, 7) != [] && TokensFrom(t, 7)[0] == "C"
  {
    var c := n + 4;
    assert t[c] == 'C' && t[c + 1] == 'P';
    assert HexRun(t, c + 1) == 0 && TokenEnd(t, c) == c + 1 && t[c..c + 1] == "C";
    assert forall k :: 7 <= k < c ==> !IsHexOrColon(t[k]);
    TokensFromAt(t, 7, c);
  }
}
