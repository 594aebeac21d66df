/** An adapter block as `ipconfig /all` prints it: a header line `<name>:`, blank
    lines, then one line `   <label><pad>: <value>` per setting, the DNS servers on
    the DNS line and on indented lines under it, every line ended by `\n` or
    `\r\n`. Where the labels sit in such a block is worked out here, and from that
    each setting `ParseBlock` reads. */
module NetworkBlockProofs {
  import opened Text
  import opened NetworkInfo
  import opened NetworkInfoProofs

  /* ---------------------------------------------------------------------------
     Where a label cannot occur
     --------------------------------------------------------------------------- */

  /** No occurrence of `key` in `s` starts in `[a, b)`. */
  ghost predicate Absent(s: string, key: string, a: nat, b: nat) {
    forall j :: a <= j < b ==> !OccursAt(s, key, j)
  }

  /** The shape of the labels the parser looks for: two characters at least, no line
      break or colon in them, and a first character that is neither a blank, a dot
      nor a colon. */
  predicate IsLabel(key: string) {
    && |key| >= 2
    && !IsSpace(key[0]) && key[0] != '.' && key[0] != ':'
    && forall i :: 0 <= i < |key| ==> key[i] != '\r' && key[i] != '\n' && key[i] != ':'
  }

  /** No occurrence of `key` can begin inside `caption`, whatever follows the label:
      every character equal to the key's first one is followed, within the label, by
      one that differs from the key's second. */
  predicate NoStartIn(caption: string, key: string)
    requires |key| >= 2
  {
    forall i :: 0 <= i < |caption| ==> caption[i] != key[0] || (i + 1 < |caption| && caption[i + 1] != key[1])
  }

  /** A run of characters none of which starts the key. */
  lemma AbsentByFirst(s: string, key: string, a: nat, b: nat)
    requires IsLabel(key) && b <= |s|
    requires forall k :: a <= k < b ==> s[k] != key[0]
    ensures Absent(s, key, a, b)
  {
    forall j | a <= j < b
      ensures !OccursAt(s, key, j)
    {
    }
  }

  /** The key does not start at `j` when one of its characters is missing there. */
  lemma NotAtBy(s: string, key: string, j: nat, k: nat)
    requires k < |key| && j + k < |s| && s[j + k] != key[k]
    ensures !OccursAt(s, key, j)
  {
    if j + |key| <= |s| {
      assert s[j..j + |key|][k] == s[j + k];
    }
  }

  /** A text without the key, followed by a line break or a colon: an occurrence
      starting in it would have to lie inside it. */
  lemma AbsentInside(s: string, key: string, a: nat, e: nat, v: string)
    requires IsLabel(key) && !Contains(v, key)
    requires e == a + |v| && e < |s| && s[a..e] == v
    requires IsLineBreak(s[e]) || s[e] == ':'
    ensures Absent(s, key, a, e)
  {
    forall j | a <= j < e
      ensures !OccursAt(s, key, j)
    {
      if j + |key| <= e {
        SliceOfSlice(s, a, e, v, j - a, j - a + |key|);
        assert !OccursAt(v, key, j - a);
      } else {
        NotAtBy(s, key, j, e - j);
      }
    }
  }

  /** A caption in which the key cannot begin. */
  lemma AbsentInLabel(s: string, key: string, a: nat, e: nat, caption: string)
    requires IsLabel(key) && NoStartIn(caption, key)
    requires e == a + |caption| && e <= |s| && s[a..e] == caption
    ensures Absent(s, key, a, e)
  {
    forall j | a <= j < e
      ensures !OccursAt(s, key, j)
    {
      var i := j - a;
      assert caption[i] != key[0] || (i + 1 < |caption| && caption[i + 1] != key[1]);
      assert caption[i] == s[j] by { assert s[a..e][i] == s[a + i]; }
      if caption[i] != key[0] {
        NotAtBy(s, key, j, 0);
      } else {
        assert caption[i + 1] == s[j + 1] by { assert s[a..e][i + 1] == s[a + i + 1]; }
        NotAtBy(s, key, j, 1);
      }
    }
  }

  lemma SliceOfSlice(s: string, a: nat, e: nat, t: string, i: nat, j: nat)
    requires e == a + |t| && e <= |s| && s[a..e] == t && i <= j <= |t|
    ensures s[a + i..a + j] == t[i..j]
  {
    assert forall k :: a + i <= k < a + j ==> s[k] == s[a..e][k - a];
  }

  /* ---------------------------------------------------------------------------
     Field lines
     --------------------------------------------------------------------------- */

  /** One line `   <caption><pad>: <value>` of the listing. */
  datatype FieldLine = FieldLine(caption: string, pad: string, value: string)

  /** The line without its line end. */
  function LineBody(l: FieldLine): string {
    "   " + l.caption + l.pad + ": " + l.value
  }

  /** The line with its line end. */
  function LineText(l: FieldLine, eol: string): string {
    "   " + l.caption + l.pad + ": " + l.value + eol
  }

  function LinesText(ls: seq<FieldLine>, eol: string): string {
    if ls == [] then "" else LineText(ls[0], eol) + LinesText(ls[1..], eol)
  }

  /** What surrounds the field lines of a block: the adapter's header, what stands
      between the header line and the first field line (a blank line in the
      listing), and the line end of every line. */
  datatype Frame = Frame(header: string, gap: string, eol: string)

  /** A frame with a line end of either kind and a gap of blank lines. */
  predicate Framed(f: Frame) {
    IsEol(f.eol) && IsLayout(f.gap)
  }

  /** The header line `<header>:` and the gap. */
  function Top(f: Frame): string {
    f.header + ":" + f.eol + f.gap
  }

  /** A block: the header line, the gap, the field lines, and what follows them. */
  function BlockText(f: Frame, ls: seq<FieldLine>, tail: string): string {
    Top(f) + LinesText(ls, f.eol) + tail
  }

  /** The text of a block before the caption of its line `m`. */
  function Before(f: Frame, ls: seq<FieldLine>, m: nat): string
    requires m <= |ls|
  {
    Top(f) + LinesText(ls[..m], f.eol) + "   "
  }

  /** The text of a block after its line `m`. */
  function After(f: Frame, ls: seq<FieldLine>, m: nat, tail: string): string
    requires m < |ls|
  {
    LinesText(ls[m + 1..], f.eol) + tail
  }

  /** A pad of dots and blanks, as `ipconfig` aligns its colons with. */
  predicate IsPad(pad: string) {
    forall i :: 0 <= i < |pad| ==> pad[i] == ' ' || pad[i] == '.'
  }

  /** A line in which the key does not occur: either its caption cannot hold the
      key's beginning, its pad is dots and blanks and its value lacks the key, or
      the key occurs nowhere in the line. */
  ghost predicate LineClear(l: FieldLine, key: string)
    requires |key| >= 2
  {
    (NoStartIn(l.caption, key) && IsPad(l.pad) && !Contains(l.value, key)) || !Contains(LineBody(l), key)
  }

  /** Blanks, dots, colons and line breaks, none of which starts a label. */
  predicate IsLayout(u: string) {
    forall i :: 0 <= i < |u| ==> u[i] in {' ', '.', ':', '\r', '\n'}
  }

  lemma AbsentInLayout(s: string, key: string, a: nat, e: nat, u: string)
    requires IsLabel(key) && IsLayout(u)
    requires e == a + |u| && e <= |s| && s[a..e] == u
    ensures Absent(s, key, a, e)
  {
    forall k | a <= k < e
      ensures s[k] != key[0]
    {
      assert s[k] == u[k - a];
    }
    AbsentByFirst(s, key, a, e);
  }

  /** The key occurs nowhere in a clear line. */
  lemma LineAbsent(s: string, key: string, a: nat, e: nat, l: FieldLine, eol: string)
    requires IsLabel(key) && LineClear(l, key) && IsEol(eol)
    requires e == a + |LineText(l, eol)| && e <= |s| && s[a..e] == LineText(l, eol)
    ensures Absent(s, key, a, e)
  {
    if NoStartIn(l.caption, key) && IsPad(l.pad) && !Contains(l.value, key) {
      assert IsLayout(l.pad);
      PartsAbsent(s, key, a, e, "   ", l.caption, l.pad, ": ", l.value, eol);
    } else {
      var body := LineBody(l);
      var o := a + |body|;
      SplitAt(s, a, o, e, body, eol);
      assert s[o] == eol[0] by { assert s[o..e][0] == s[o]; }
      AbsentInside(s, key, a, o, body);
      AbsentInLayout(s, key, o, e, eol);
    }
  }

  /** The same for a line given by its six parts. */
  lemma PartsAbsent(s: string, key: string, a: nat, e: nat, x: string, c: string, d: string, y: string, v: string, z: string)
    requires IsLabel(key) && IsLayout(x) && IsLayout(d) && IsLayout(y) && IsLayout(z) && z != [] && IsLineBreak(z[0])
    requires NoStartIn(c, key) && !Contains(v, key)
    requires e == a + |x + c + d + y + v + z| && e <= |s| && s[a..e] == x + c + d + y + v + z
    ensures Absent(s, key, a, e)
  {
    var w1 := x + c;
    var w2 := w1 + d;
    var w3 := w2 + y;
    var w4 := w3 + v;
    var o1 := a + |x|;
    var o2 := o1 + |c|;
    var o3 := o2 + |d|;
    var o4 := o3 + |y|;
    var o5 := o4 + |v|;
    SplitAt(s, a, o5, e, w4, z);
    SplitAt(s, a, o4, o5, w3, v);
    SplitAt(s, a, o3, o4, w2, y);
    SplitAt(s, a, o2, o3, w1, d);
    SplitAt(s, a, o1, o2, x, c);
    AbsentInLayout(s, key, a, o1, x);
    AbsentInLabel(s, key, o1, o2, c);
    AbsentInLayout(s, key, o2, o3, d);
    AbsentInLayout(s, key, o3, o4, y);
    assert s[o5] == z[0] by { assert s[o5..e][0] == s[o5]; }
    AbsentInside(s, key, o4, o5, v);
    AbsentInLayout(s, key, o5, e, z);
  }

  /** The two parts of a slice `u + w` that starts at `a` and ends at `e`. */
  lemma SplitAt(s: string, a: nat, m: nat, e: nat, u: string, w: string)
    requires m == a + |u| && e == m + |w| && e <= |s| && s[a..e] == u + w
    ensures s[a..m] == u && s[m..e] == w
  {
    assert s[a..m] == (u + w)[..|u|];
    assert s[m..e] == (u + w)[|u|..];
  }

  lemma Assoc(a: string, b: string, c: string)
    ensures a + (b + c) == (a + b) + c
  {
  }

  /** The part `y` of `x + y + z`. */
  lemma SliceAt(s: string, x: string, y: string, z: string)
    requires s == x + y + z
    ensures |x| + |y| <= |s| && s[|x|..|x| + |y|] == y
  {
  }

  /** The lines of a block around its line `m`. */
  lemma {:induction false} LinesCut(ls: seq<FieldLine>, eol: string, m: nat)
    requires m < |ls|
    ensures LinesText(ls, eol) == LinesText(ls[..m], eol) + (LineText(ls[m], eol) + LinesText(ls[m + 1..], eol))
    decreases m
  {
    if m == 0 {
      assert ls[..0] == [];
    } else {
      var t := ls[1..];
      LinesCut(t, eol, m - 1);
      assert t[..m - 1] == ls[..m][1..];
      assert t[m - 1] == ls[m];
      assert t[m..] == ls[m + 1..];
      Assoc(LineText(ls[0], eol), LinesText(t[..m - 1], eol), LineText(ls[m], eol) + LinesText(ls[m + 1..], eol));
    }
  }

  /** The first `m + 1` lines are the first `m` and line `m`. */
  lemma LinesSnoc(ls: seq<FieldLine>, eol: string, m: nat)
    requires m < |ls|
    ensures LinesText(ls[..m + 1], eol) == LinesText(ls[..m], eol) + LineText(ls[m], eol)
  {
    var t := ls[..m + 1];
    LinesCut(t, eol, m);
    assert t[..m] == ls[..m] && t[m] == ls[m] && t[m + 1..] == [];
  }

  /** A block cut at its line `m`. */
  lemma LineSplit(f: Frame, ls: seq<FieldLine>, tail: string, m: nat)
    requires m < |ls|
    ensures BlockText(f, ls, tail) ==
              Before(f, ls, m) + ls[m].caption + ls[m].pad + ": " + ls[m].value + f.eol + After(f, ls, m, tail)
  {
    LinesCut(ls, f.eol, m);
    var l := ls[m];
    LineRegroup(Top(f), LinesText(ls[..m], f.eol), l.caption, l.pad, l.value, f.eol, LinesText(ls[m + 1..], f.eol), tail);
  }

  lemma LineRegroup(h: string, p: string, c: string, d: string, v: string, eol: string, r: string, t: string)
    ensures h + (p + (("   " + c + d + ": " + v + eol) + r)) + t ==
            (h + p + "   ") + c + d + ": " + v + eol + (r + t)
  {
  }

  lemma Regroup(h: string, p: string, l: string, r: string, t: string)
    ensures h + (p + (l + r)) + t == (h + p) + l + (r + t)
  {
  }

  /** The key occurs neither in the header line, nor in the gap, nor in the `m`
      lines after it, when the header and every one of those lines are clear of
      it. */
  lemma {:induction false} LinesAbsent(f: Frame, ls: seq<FieldLine>, tail: string, key: string, m: nat)
    requires IsLabel(key) && Framed(f) && !Contains(f.header, key) && m <= |ls|
    requires forall k :: 0 <= k < m ==> LineClear(ls[k], key)
    ensures Absent(BlockText(f, ls, tail), key, 0, |Top(f)| + |LinesText(ls[..m], f.eol)|)
    decreases m
  {
    var s := BlockText(f, ls, tail);
    if m == 0 {
      TopAbsent(f, s, LinesText(ls, f.eol) + tail, key);
    } else {
      LinesAbsent(f, ls, tail, key, m - 1);
      LineAbsentAfter(f, ls, tail, key, m - 1);
    }
  }

  /** A block free of the key up to line `m` is free of it to the end of that line,
      when the line is clear of it. */
  lemma LineAbsentAfter(f: Frame, ls: seq<FieldLine>, tail: string, key: string, m: nat)
    requires IsLabel(key) && Framed(f) && m < |ls| && LineClear(ls[m], key)
    requires Absent(BlockText(f, ls, tail), key, 0, |Top(f)| + |LinesText(ls[..m], f.eol)|)
    ensures Absent(BlockText(f, ls, tail), key, 0, |Top(f)| + |LinesText(ls[..m + 1], f.eol)|)
  {
    var s := BlockText(f, ls, tail);
    var a := |Top(f)| + |LinesText(ls[..m], f.eol)|;
    var e := LinePlaced(f, ls, tail, m);
    LineAbsent(s, key, a, e, ls[m], f.eol);
  }

  /** Where line `m` lies in a block: from the end of the lines before it to the end
      of the first `m + 1` lines. */
  lemma LinePlaced(f: Frame, ls: seq<FieldLine>, tail: string, m: nat) returns (e: nat)
    requires m < |ls|
    ensures e == |Top(f)| + |LinesText(ls[..m + 1], f.eol)|
    ensures e == |Top(f)| + |LinesText(ls[..m], f.eol)| + |LineText(ls[m], f.eol)|
    ensures e <= |BlockText(f, ls, tail)|
    ensures BlockText(f, ls, tail)[|Top(f)| + |LinesText(ls[..m], f.eol)|..e] == LineText(ls[m], f.eol)
  {
    var s := BlockText(f, ls, tail);
    var l := ls[m];
    var p := Top(f) + LinesText(ls[..m], f.eol);
    LinesCut(ls, f.eol, m);
    LinesSnoc(ls, f.eol, m);
    Regroup(Top(f), LinesText(ls[..m], f.eol), LineText(l, f.eol), LinesText(ls[m + 1..], f.eol), tail);
    SliceAt(s, p, LineText(l, f.eol), LinesText(ls[m + 1..], f.eol) + tail);
    e := |p| + |LineText(l, f.eol)|;
  }

  /** The key occurs neither in the header nor in the layout after it. */
  lemma TopAbsent(f: Frame, s: string, rest: string, key: string)
    requires IsLabel(key) && Framed(f) && !Contains(f.header, key)
    requires s == Top(f) + rest
    ensures Absent(s, key, 0, |Top(f)|)
  {
    var h := |f.header|;
    var u := ":" + f.eol + f.gap;
    var o := 0;
    assert s == f.header + u + rest;
    assert s[o..h] == f.header;
    SliceAt(s, f.header, u, rest);
    assert s[h] == ':';
    AbsentInside(s, key, o, h, f.header);
    AbsentInLayout(s, key, h, h + |u|, u);
  }

  /** The caption of line `m` is a label that neither the header nor an earlier line
      holds, and its pad is dots and blanks: the key first occurs on that line. */
  ghost predicate CleanAt(f: Frame, ls: seq<FieldLine>, m: nat)
    requires m < |ls|
  {
    && IsLabel(ls[m].caption) && !Contains(f.header, ls[m].caption) && IsPad(ls[m].pad)
    && forall k :: 0 <= k < m ==> LineClear(ls[k], ls[m].caption)
  }

  /** The key first occurs in a block at line `m` when the header and the lines
      before it are clear of it. */
  lemma BeforeAbsent(f: Frame, ls: seq<FieldLine>, tail: string, m: nat)
    requires m < |ls| && Framed(f) && CleanAt(f, ls, m)
    ensures forall j :: 0 <= j < |Before(f, ls, m)| ==> !OccursAt(BlockText(f, ls, tail), ls[m].caption, j)
  {
    var key := ls[m].caption;
    var s := BlockText(f, ls, tail);
    var e := |Top(f)| + |LinesText(ls[..m], f.eol)|;
    LinesAbsent(f, ls, tail, key, m);
    LineSplit(f, ls, tail, m);
    assert forall k :: e <= k < e + 3 ==> s[k] == ' ';
    AbsentByFirst(s, key, e, e + 3);
  }

  /* ---------------------------------------------------------------------------
     The DNS lines
     --------------------------------------------------------------------------- */

  lemma {:induction false} SpaceRunIs(s: string, i: nat, n: nat)
    requires i + n <= |s| && forall k :: i <= k < i + n ==> IsSpace(s[k])
    requires i + n == |s| || !IsSpace(s[i + n])
    ensures SpaceRun(s, i) == n
    decreases n
  {
    if n > 0 {
      SpaceRunIs(s, i + 1, n - 1);
    }
  }

  /** The first occurrence of a text found by `IndexOf`. */
  lemma IndexOfFirst(s: string, t: string, i: nat)
    requires OccursAt(s, t, i) && forall j :: 0 <= j < i ==> !OccursAt(s, t, j)
    ensures IndexOf(s, t, 0).Some? && IndexOf(s, t, 0).value == i
  {
  }

  /** A value that starts with a character `[.\s:]*` cannot take and holds no line
      break, as a dotted quad does. */
  predicate IsLineValue(v: string) {
    v != [] && !IsFiller(v[0]) && forall k :: 0 <= k < |v| ==> !IsLineBreak(v[k])
  }

  lemma QuadIsLineValue(q: string)
    requires IsDottedQuad(q)
    ensures IsLineValue(q)
  {
    DottedGroupsChars(q, 0, |q|, 4);
  }

  /** A line that one round of `\r?\n\s+[^\r\n]+` takes whole: it starts with a
      blank, holds no line break, and ends with a character other than whitespace. */
  predicate IsIndented(t: string) {
    |t| >= 2 && t[0] == ' ' && !IsSpace(t[|t| - 1]) && forall k :: 0 <= k < |t| ==> !IsLineBreak(t[k])
  }

  /** Lines, each followed by the line end. */
  function Lines(ts: seq<string>, eol: string): string {
    if ts == [] then "" else ts[0] + eol + Lines(ts[1..], eol)
  }

  /** Lines, each preceded by the line end. */
  function Continued(ts: seq<string>, eol: string): string {
    if ts == [] then "" else eol + ts[0] + Continued(ts[1..], eol)
  }

  lemma {:induction false} LinesContinued(ts: seq<string>, eol: string)
    ensures eol + Lines(ts, eol) == Continued(ts, eol) + eol
  {
    if ts != [] {
      LinesContinued(ts[1..], eol);
      assert eol + Lines(ts, eol) == eol + ts[0] + (eol + Lines(ts[1..], eol));
    }
  }

  /** A line `<key> . . . : <value>` followed by indented lines, the last line of
      a block with no occurrence of the key before it: the continued text spans the
      rest of the line and every indented line, with the line ends between them. */
  lemma ContinuedLines(block: string, before: string, key: string, pad: string, d1: string, eol: string, more: seq<string>)
    requires IsPad(pad) && IsLineValue(d1) && IsEol(eol)
    requires forall k :: 0 <= k < |more| ==> IsIndented(more[k])
    requires block == before + key + pad + ": " + d1 + Continued(more, eol) + eol
    requires forall j :: 0 <= j < |before| ==> !OccursAt(block, key, j)
    ensures ContinuedText(block, key) == Some(d1 + Continued(more, eol))
  {
    var c := Continued(more, eol);
    var ps := ContinuedAt(block, before, key, pad, d1, eol, c);
    var i, q, p, a, b, z := ps.i, ps.q, ps.p, ps.a, ps.b, ps.z;
    ContinuedRuns(block, q, p, a, b, z, pad, d1, eol, more);
    IndexOfFirst(block, key, i);
    ContinuedTextIs(block, key, i, q);
    RunsAfter(block, q, a, b, z);
    ContinuedFromRuns(block, q, a, z);
    JoinTwo(block, a, b, z, d1, c);
  }

  /** Where the parts of the key's line and the continuation start: the key, the
      pad, `: `, the first value, the continued lines and the final line end. */
  datatype Marks = Marks(i: nat, q: nat, p: nat, a: nat, b: nat, z: nat)

  lemma ContinuedAt(block: string, before: string, key: string, pad: string, d1: string, eol: string, c: string)
    returns (ps: Marks)
    requires block == before + key + pad + ": " + d1 + c + eol
    ensures ps.i == |before| && ps.q == ps.i + |key| && ps.p == ps.q + |pad| && ps.a == ps.p + 2
    ensures ps.b == ps.a + |d1| && ps.z == ps.b + |c| && ps.z + |eol| == |block|
    ensures block[ps.i..ps.q] == key && block[ps.q..ps.p] == pad && block[ps.p..ps.a] == ": "
    ensures block[ps.a..ps.b] == d1 && block[ps.b..ps.z] == c && block[ps.z..] == eol
  {
    var w1 := before + key;
    var w2 := w1 + pad;
    var w3 := w2 + ": ";
    var w4 := w3 + d1;
    var w5 := w4 + c;
    var o := 0;
    var i := |before|;
    var q := i + |key|;
    var p := q + |pad|;
    var a := p + 2;
    var b := a + |d1|;
    var z := b + |c|;
    var e := |block|;
    ps := Marks(i, q, p, a, b, z);
    assert block[o..e] == w5 + eol;
    SplitAt(block, o, z, e, w5, eol);
    SplitAt(block, o, b, z, w4, c);
    SplitAt(block, o, a, b, w3, d1);
    SplitAt(block, o, p, a, w2, ": ");
    SplitAt(block, o, q, p, w1, pad);
    SplitAt(block, o, i, q, before, key);
  }

  lemma JoinTwo(s: string, a: nat, b: nat, z: nat, u: string, w: string)
    requires a <= b <= z <= |s| && s[a..b] == u && s[b..z] == w
    ensures s[a..z] == u + w
  {
    assert s[a..z] == s[a..b] + s[b..z];
  }

  /** The runs the pattern takes after the key, which ends at `q`: the pad and `: `,
      the first value, and the indented lines. */
  lemma ContinuedRuns(s: string, q: nat, p: nat, a: nat, b: nat, z: nat, pad: string, d1: string, eol: string, more: seq<string>)
    requires IsPad(pad) && IsLineValue(d1) && IsEol(eol)
    requires forall k :: 0 <= k < |more| ==> IsIndented(more[k])
    requires p == q + |pad| && a == p + 2 && b == a + |d1| && z == b + |Continued(more, eol)| && z + |eol| == |s|
    requires s[q..p] == pad && s[p..a] == ": " && s[a..b] == d1 && s[b..z] == Continued(more, eol) && s[z..] == eol
    ensures FillerRun(s, q) == a - q && TextRun(s, a) == b - a && ContinuationEnd(s, b) == z
  {
    SliceHead(s, a, b, d1);
    FillerOf(s, q, p, a, pad);
    assert s[b..] == Continued(more, eol) + eol;
    assert s[b] == eol[0] by {
      if more == [] {
        assert s[b..][0] == s[b];
      } else {
        assert s[b..][0] == s[b] && Continued(more, eol)[0] == eol[0];
      }
    }
    TextOf(s, a, b, d1);
    ContinuationOver(s, b, more, eol);
  }

  /** `(?:\r?\n\s+[^\r\n]+)*` takes every indented line and stops at the final line
      end. */
  lemma {:induction false} ContinuationOver(s: string, x: nat, ts: seq<string>, eol: string)
    requires IsEol(eol) && forall k :: 0 <= k < |ts| ==> IsIndented(ts[k])
    requires x <= |s| && s[x..] == Continued(ts, eol) + eol
    ensures x + |Continued(ts, eol)| + |eol| == |s| && ContinuationEnd(s, x) == x + |Continued(ts, eol)|
    decreases |ts|
  {
    assert |s[x..]| == |s| - x;
    if ts == [] {
      assert s[x..x + |eol|] == eol;
      EolBreak(s, x, eol);
      assert IndentedLine(s, |s|) == None;
    } else {
      var t := ts[0];
      var r := Continued(ts[1..], eol) + eol;
      var y := x + |eol|;
      var z := y + |t|;
      assert s[x..] == eol + t + r;
      Pieces(s, x, y, z, eol, t, r);
      EolBreak(s, x, eol);
      assert s[z] == eol[0] by {
        if ts[1..] == [] {
          assert s[z..][0] == s[z];
        } else {
          assert s[z..][0] == s[z] && Continued(ts[1..], eol)[0] == eol[0];
        }
      }
      IndentedAt(s, y, t, z);
      assert forall k :: 0 <= k < |ts[1..]| ==> IsIndented(ts[1..][k]);
      ContinuationOver(s, z, ts[1..], eol);
    }
  }

  /** The three parts of a suffix `u + v + w` that starts at `x`. */
  lemma Pieces(s: string, x: nat, y: nat, z: nat, u: string, v: string, w: string)
    requires x <= |s| && s[x..] == u + v + w && y == x + |u| && z == y + |v|
    ensures z <= |s| && s[x..y] == u && s[y..z] == v && s[z..] == w
  {
    assert s[x..y] == (u + v + w)[..|u|];
    assert s[y..z] == (u + v + w)[|u|..|u| + |v|];
    assert s[z..] == (u + v + w)[|u| + |v|..];
  }

  /** `\s+[^\r\n]+` takes an indented line that a line break ends. */
  lemma IndentedAt(s: string, y: nat, t: string, z: nat)
    requires IsIndented(t) && z == y + |t| && z < |s| && s[y..z] == t && IsLineBreak(s[z])
    ensures IndentedLine(s, y) == Some(z)
  {
    var w := SpaceRun(s, y);
    assert s[y] == t[0];
    assert s[z - 1] == t[|t| - 1];
    assert w >= 1 && y + w < z;
    forall k | y + w <= k < z
      ensures !IsLineBreak(s[k])
    {
      assert s[k] == t[k - y];
    }
    var n := z - (y + w);
    TextRunIs(s, y + w, n);
  }

  lemma SliceHead(s: string, a: nat, b: nat, v: string)
    requires v != [] && b == a + |v| && b <= |s| && s[a..b] == v
    ensures s[a] == v[0]
  {
    assert s[a] == s[a..b][0];
  }

  /** `[.\s:]*` takes a pad and the `: ` after it. */
  lemma FillerOf(s: string, q: nat, p: nat, a: nat, pad: string)
    requires IsPad(pad) && p == q + |pad| && a == p + 2 && a < |s|
    requires s[q..p] == pad && s[p..a] == ": " && !IsFiller(s[a])
    ensures FillerRun(s, q) == a - q
  {
    forall k | q <= k < a
      ensures IsFiller(s[k])
    {
      if k < p {
        assert s[k] == s[q..p][k - q];
      } else {
        assert s[k] == s[p..a][k - p];
      }
    }
    var n := a - q;
    FillerRunIs(s, q, n);
  }

  /** `[^\r\n]*` takes a value without line breaks that a line break ends. */
  lemma TextOf(s: string, a: nat, b: nat, v: string)
    requires b == a + |v| && b < |s| && s[a..b] == v && IsLineBreak(s[b])
    requires forall k :: 0 <= k < |v| ==> !IsLineBreak(v[k])
    ensures TextRun(s, a) == b - a
  {
    forall k | a <= k < b
      ensures !IsLineBreak(s[k])
    {
      assert s[k] == s[a..b][k - a];
    }
    var n := b - a;
    TextRunIs(s, a, n);
  }

  /** The continued text of a key first occurring at `i` is what follows it. */
  lemma ContinuedTextIs(s: string, key: string, i: nat, q: nat)
    requires IndexOf(s, key, 0).Some? && IndexOf(s, key, 0).value == i && q == i + |key|
    ensures q <= |s| && ContinuedText(s, key) == Some(ContinuedFrom(s, q))
  {
    ContinuedTextAt(s, key, i);
  }

  lemma ContinuedTextAt(s: string, key: string, i: nat)
    requires IndexOf(s, key, 0).Some? && IndexOf(s, key, 0).value == i
    ensures i + |key| <= |s| && ContinuedText(s, key) == Some(ContinuedFrom(s, i + |key|))
  {
  }

  /** The runs after `q`, restated in the terms `ContinuedFrom` computes them in. */
  lemma RunsAfter(s: string, q: nat, a: nat, b: nat, z: nat)
    requires q <= a <= b <= |s|
    requires FillerRun(s, q) == a - q && TextRun(s, a) == b - a && ContinuationEnd(s, b) == z
    ensures q + FillerRun(s, q) == a && TextRun(s, q + FillerRun(s, q)) == b - a
    ensures ContinuationEnd(s, q + FillerRun(s, q) + TextRun(s, q + FillerRun(s, q))) == z
  {
    EndSame(s, q + FillerRun(s, q) + TextRun(s, q + FillerRun(s, q)), b);
  }

  lemma EndSame(s: string, b0: nat, b: nat)
    requires b0 <= |s| && b0 == b
    ensures ContinuationEnd(s, b0) == ContinuationEnd(s, b)
  {
  }

  /** What follows the key, once the runs after it are known. */
  lemma ContinuedFromRuns(s: string, q: nat, a: nat, z: nat)
    requires q <= |s|
    requires q + FillerRun(s, q) == a
    requires ContinuationEnd(s, q + FillerRun(s, q) + TextRun(s, q + FillerRun(s, q))) == z
    ensures a <= z <= |s| && ContinuedFrom(s, q) == s[a..z]
  {
  }

  /** A dotted quad placed at `p`, with no word character on either side, matches
      there. */
  lemma QuadHere(s: string, p: nat, q: string, e: nat)
    requires IsDottedQuad(q) && e == p + |q| && e <= |s| && s[p..e] == q
    requires p == 0 || !IsWordChar(s[p - 1])
    requires e == |s| || !IsWordChar(s[e])
    ensures QuadAt(s, p) == Some(e)
  {
    QuadPlaced(s, p, q, e);
    assert e == |s| || !IsDigit(s[e]);
    DottedGroupsRead(s, p, e, 4);
  }

  lemma QuadPlaced(s: string, p: nat, q: string, e: nat)
    requires IsDottedQuad(q) && e == p + |q| && e <= |s| && s[p..e] == q
    ensures DottedGroups(s, p, e, 4)
  {
    forall k | 0 <= k < |q|
      ensures s[p + (k - 0)] == q[k]
    {
      assert s[p..e][k] == s[p + k];
    }
    DottedGroupsMoved(q, 0, |q|, 4, s, p);
  }

  /** No dotted quad starts where there is no digit. */
  lemma {:induction false} QuadsSkipRun(s: string, from: nat, to: nat)
    requires from <= to <= |s| && forall k :: from <= k < to ==> !IsDigit(s[k])
    ensures QuadsFrom(s, from) == QuadsFrom(s, to)
    decreases |s| - from
  {
    if from < to {
      QuadsFromSkip(s, from);
      QuadsSkipRun(s, from + 1, to);
    }
  }

  /** A text without digits. */
  predicate NoDigits(t: string) {
    forall k :: 0 <= k < |t| ==> !IsDigit(t[k])
  }

  lemma {:induction false} ContinuedNoDigits(ts: seq<string>, eol: string)
    requires IsEol(eol) && forall k :: 0 <= k < |ts| ==> NoDigits(ts[k])
    ensures NoDigits(Continued(ts, eol))
  {
    if ts != [] {
      var r := ts[1..];
      assert forall k :: 0 <= k < |r| ==> NoDigits(r[k]);
      ContinuedNoDigits(r, eol);
      var u := eol + ts[0];
      assert NoDigits(u) by {
        assert forall k :: 0 <= k < |u| ==> u[k] == if k < |eol| then eol[k] else ts[0][k - |eol|];
      }
      NoDigitsJoin(u, Continued(r, eol));
    }
  }

  lemma NoDigitsJoin(u: string, w: string)
    requires NoDigits(u) && NoDigits(w)
    ensures NoDigits(u + w)
  {
    assert forall k :: 0 <= k < |u + w| ==> (u + w)[k] == if k < |u| then u[k] else w[k - |u|];
  }

  /** The quads of two DNS servers on their lines, followed by lines without digits,
      are the two servers, in order. */
  lemma TwoQuads(d1: string, eol: string, ind: string, d2: string, trailer: seq<string>)
    requires IsDottedQuad(d1) && IsDottedQuad(d2) && IsEol(eol)
    requires ind != [] && forall k :: 0 <= k < |ind| ==> ind[k] == ' '
    requires forall k :: 0 <= k < |trailer| ==> NoDigits(trailer[k])
    ensures QuadsFrom(d1 + Continued([ind + d2] + trailer, eol), 0) == [d1, d2]
  {
    var r := Continued(trailer, eol);
    var t := d1 + Continued([ind + d2] + trailer, eol);
    ContinuedFirst(d1, eol, ind, d2, trailer);
    var b := |d1|;
    var x := b + |eol| + |ind|;
    var e := x + |d2|;
    var o := 0;
    ContinuedNoDigits(trailer, eol);
    DottedGroupsChars(d1, 0, |d1|, 4);
    TwoLinesLayout(t, d1, eol, ind, d2, r, b, x, e);
    QuadHere(t, o, d1, b);
    QuadHere(t, x, d2, e);
    QuadsOfTwo(t, b, x, e);
  }

  lemma ContinuedFirst(d1: string, eol: string, ind: string, d2: string, trailer: seq<string>)
    ensures d1 + Continued([ind + d2] + trailer, eol) == d1 + eol + ind + d2 + Continued(trailer, eol)
  {
    assert ([ind + d2] + trailer)[1..] == trailer;
  }

  /** The matches of a text holding a quad at its start, one at `x`, no digit
      between them and none after the second. */
  lemma QuadsOfTwo(t: string, b: nat, x: nat, e: nat)
    requires b <= x < e <= |t| && QuadAt(t, 0) == Some(b) && QuadAt(t, x) == Some(e)
    requires forall k :: b <= k < x ==> !IsDigit(t[k])
    requires forall k :: e <= k < |t| ==> !IsDigit(t[k])
    ensures QuadsFrom(t, 0) == [t[0..b], t[x..e]]
  {
    assert QuadsFrom(t, 0) == [t[0..b]] + QuadsFrom(t, b);
    QuadsSkipRun(t, b, x);
    assert QuadsFrom(t, x) == [t[x..e]] + QuadsFrom(t, e);
    QuadsSkipRun(t, e, |t|);
  }

  /** Where the parts of the DNS lines lie. */
  lemma TwoLinesLayout(t: string, d1: string, eol: string, ind: string, d2: string, r: string, b: nat, x: nat, e: nat)
    requires d1 != [] && ind != [] && forall k :: 0 <= k < |ind| ==> ind[k] == ' '
    requires IsEol(eol) && NoDigits(r) && (r == [] || r[0] == eol[0])
    requires t == d1 + eol + ind + d2 + r && b == |d1| && x == b + |eol| + |ind| && e == x + |d2|
    ensures e <= |t| && t[0..b] == d1 && t[x..e] == d2 && x <= e
    ensures !IsWordChar(t[b]) && !IsWordChar(t[x - 1]) && (e == |t| || !IsWordChar(t[e]))
    ensures forall k :: b <= k < x ==> !IsDigit(t[k])
    ensures forall k :: e <= k < |t| ==> !IsDigit(t[k])
  {
    assert forall k :: b <= k < b + |eol| ==> t[k] == eol[k - b];
    assert forall k :: b + |eol| <= k < x ==> t[k] == ind[k - b - |eol|];
    assert forall k :: e <= k < |t| ==> t[k] == r[k - e];
  }

  /** The DNS servers of a block whose DNS line is followed by such lines are the two
      quads. */
  lemma DnsOfLines(block: string, before: string, pad: string, d1: string, eol: string, ind: string, d2: string, trailer: seq<string>)
    requires IsPad(pad) && IsDottedQuad(d1) && IsDottedQuad(d2) && IsEol(eol)
    requires ind != [] && forall k :: 0 <= k < |ind| ==> ind[k] == ' '
    requires forall k :: 0 <= k < |trailer| ==> IsIndented(trailer[k]) && NoDigits(trailer[k])
    requires block == before + DnsLabel + pad + ": " + d1 + Continued([ind + d2] + trailer, eol) + eol
    requires forall j :: 0 <= j < |before| ==> !OccursAt(block, DnsLabel, j)
    ensures DnsServers(block) == (d1, d2)
  {
    var more := [ind + d2] + trailer;
    QuadIsLineValue(d1);
    QuadIsLineValue(d2);
    SecondServerLine(ind, d2);
    assert forall k :: 0 <= k < |more| ==> IsIndented(more[k]) by {
      assert forall k :: 1 <= k < |more| ==> more[k] == trailer[k - 1];
    }
    ContinuedLines(block, before, DnsLabel, pad, d1, eol, more);
    TwoQuads(d1, eol, ind, d2, trailer);
  }

  /** The line of the second server, indented under the first, is taken whole. */
  lemma SecondServerLine(ind: string, d2: string)
    requires IsDottedQuad(d2) && ind != [] && forall k :: 0 <= k < |ind| ==> ind[k] == ' '
    ensures IsIndented(ind + d2)
  {
    var t := ind + d2;
    DottedGroupsChars(d2, 0, |d2|, 4);
    assert t[|t| - 1] == d2[|d2| - 1];
    assert forall k :: 0 <= k < |t| ==> t[k] == if k < |ind| then ind[k] else d2[k - |ind|];
  }

  /* ---------------------------------------------------------------------------
     A whole block
     --------------------------------------------------------------------------- */

  /** In a block the caption of a clean line `m` first occurs on that line. */
  lemma LineFirst(f: Frame, ls: seq<FieldLine>, tail: string, m: nat)
    requires m < |ls| && Framed(f) && CleanAt(f, ls, m)
    ensures BlockText(f, ls, tail) ==
              Before(f, ls, m) + ls[m].caption + ls[m].pad + ": " + ls[m].value + f.eol + After(f, ls, m, tail)
    ensures forall j :: 0 <= j < |Before(f, ls, m)| ==> !OccursAt(BlockText(f, ls, tail), ls[m].caption, j)
  {
    LineSplit(f, ls, tail, m);
    BeforeAbsent(f, ls, tail, m);
  }

  /** A text value without blanks at its ends and without line breaks. */
  predicate IsTextValue(v: string) {
    v != [] && !IsSpace(v[0]) && !IsSpace(v[|v| - 1]) && forall i :: 0 <= i < |v| ==> v[i] != '\n'
  }

  /** The text field of a block's clean line `m` is the line's value. */
  lemma TextOfLine(f: Frame, ls: seq<FieldLine>, tail: string, m: nat)
    requires m < |ls| && Framed(f) && CleanAt(f, ls, m) && IsTextValue(ls[m].value)
    ensures TextField(BlockText(f, ls, tail), ls[m].caption) == Some(ls[m].value)
  {
    LineFirst(f, ls, tail, m);
    var l := ls[m];
    TextLine(BlockText(f, ls, tail), Before(f, ls, m), l.caption, l.pad, l.value, f.eol, After(f, ls, m, tail));
  }

  /** The dotted field of a block's clean line `m`, whose value is `v` and a note
      that does not start with a digit or a dot, is `v`. */
  lemma DottedOfLine(f: Frame, ls: seq<FieldLine>, tail: string, m: nat, v: string, note: string)
    requires m < |ls| && Framed(f) && CleanAt(f, ls, m) && ls[m].value == v + note
    requires v != [] && forall i :: 0 <= i < |v| ==> IsDottedChar(v[i])
    requires note == [] || !IsDottedChar(note[0])
    ensures FieldSearch(BlockText(f, ls, tail), ls[m].caption, 0, Dotted) == Some(v)
  {
    LineFirst(f, ls, tail, m);
    var l := ls[m];
    var s := BlockText(f, ls, tail);
    var b := Before(f, ls, m);
    var rest := note + f.eol + After(f, ls, m, tail);
    assert s == b + l.caption + l.pad + ": " + v + rest;
    assert rest[0] == if note == [] then f.eol[0] else note[0];
    DottedLine(s, b, l.caption, l.pad, v, rest);
  }

  /** The gateway of a block whose clean line `m` is the gateway line is its quad. */
  lemma GatewayOfBlockLine(f: Frame, ls: seq<FieldLine>, tail: string, m: nat)
    requires m < |ls| && Framed(f) && CleanAt(f, ls, m)
    requires ls[m].caption == GatewayLabel && IsDottedQuad(ls[m].value)
    ensures Gateway(BlockText(f, ls, tail)) == ls[m].value
  {
    LineFirst(f, ls, tail, m);
    var l := ls[m];
    var s := BlockText(f, ls, tail);
    var pad := l.pad + ": ";
    assert forall i :: 0 <= i < |pad| ==> IsFiller(pad[i]);
    assert s == Before(f, ls, m) + GatewayLabel + pad + l.value + f.eol + After(f, ls, m, tail);
    GatewayOfLine(s, Before(f, ls, m), pad, l.value, f.eol, After(f, ls, m, tail));
  }

  /** The DNS servers of a block whose last field line is a clean DNS line, followed
      by the second server on an indented line and then by indented lines without
      digits, are the quads of the first two lines. */
  lemma DnsOfLastLine(f: Frame, ls: seq<FieldLine>, ind: string, d2: string, trailer: seq<string>)
    requires |ls| >= 1 && Framed(f) && CleanAt(f, ls, |ls| - 1)
    requires ls[|ls| - 1].caption == DnsLabel && IsDottedQuad(ls[|ls| - 1].value) && IsDottedQuad(d2)
    requires ind != [] && forall k :: 0 <= k < |ind| ==> ind[k] == ' '
    requires forall k :: 0 <= k < |trailer| ==> IsIndented(trailer[k]) && NoDigits(trailer[k])
    ensures DnsServers(BlockText(f, ls, Lines([ind + d2] + trailer, f.eol))) == (ls[|ls| - 1].value, d2)
  {
    var m := |ls| - 1;
    var more := [ind + d2] + trailer;
    var tail := Lines(more, f.eol);
    LineFirst(f, ls, tail, m);
    var l := ls[m];
    assert ls[m + 1..] == [];
    assert After(f, ls, m, tail) == tail;
    var s := BlockText(f, ls, tail);
    var b := Before(f, ls, m);
    LinesContinued(more, f.eol);
    EolTail(b + DnsLabel + l.pad + ": " + l.value, f.eol, tail, Continued(more, f.eol));
    DnsOfLines(s, b, l.pad, l.value, f.eol, ind, d2, trailer);
  }

  lemma EolTail(h: string, eol: string, tail: string, c: string)
    requires eol + tail == c + eol
    ensures h + eol + tail == h + c + eol
  {
    assert h + eol + tail == h + (eol + tail);
  }

  /** The name of a block is its header, stripped. */
  lemma NameOfBlock(f: Frame, ls: seq<FieldLine>, tail: string)
    requires |f.header| >= 1 && forall i :: 0 <= i < |f.header| ==> f.header[i] != ':' && f.header[i] != '\n'
    ensures NameOf(BlockText(f, ls, tail)) == Some(Strip(f.header))
  {
    var rest := f.eol + f.gap + LinesText(ls, f.eol) + tail;
    assert BlockText(f, ls, tail) == f.header + ":" + rest;
    NameOfHeader(BlockText(f, ls, tail), f.header, rest);
  }
}
