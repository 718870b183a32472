/**
  The image stream.  The renderers write a Netpbm "raw" PPM (magic number
  P6): a header of text lines followed by the pixel payload in row-major
  order.  An output stream is modelled as the string of characters written
  to it, a byte b being the character with code b.
*/
module Netpbm {

  datatype Option<T> = None | Some(value: T)

  predicate IsDigit(ch: char)
  {
    '0' <= ch <= '9'
  }

  predicate IsDigits(s: string)
  {
    forall i :: 0 <= i < |s| ==> IsDigit(s[i])
  }

  function Digit(d: nat): (ch: char)
    requires d < 10
    ensures IsDigit(ch)
  {
    ('0' as int + d) as char
  }

  /** The value of one decimal digit. */
  function DigitValue(ch: char): (d: nat)
    requires IsDigit(ch)
    ensures d < 10
  {
    ch as int - '0' as int
  }

  /** What an ostream writes for an unsigned integer: its decimal digits,
      most significant first, with no leading zero. */
  function Dec(n: nat): (s: string)
    ensures |s| > 0 && IsDigits(s)
    ensures n > 0 ==> s[0] != '0'
  {
    if n < 10 then [Digit(n)] else Dec(n / 10) + [Digit(n % 10)]
  }

  /** The number a string of decimal digits denotes. */
  function DecValue(s: string): nat
    requires IsDigits(s)
  {
    if |s| == 0 then 0 else DecValue(s[..|s| - 1]) * 10 + DigitValue(s[|s| - 1])
  }

  /** Reading back the decimal text of n gives n. */
  lemma {:induction false} DecRoundTrip(n: nat)
    ensures DecValue(Dec(n)) == n
  {
    if n >= 10 {
      var s := Dec(n);
      assert s[..|s| - 1] == Dec(n / 10);
      DecRoundTrip(n / 10);
    }
  }

  /** Decimal text determines the number: different numbers print differently. */
  lemma DecInjective(m: nat, n: nat)
    requires Dec(m) == Dec(n)
    ensures m == n
  {
    DecRoundTrip(m);
    DecRoundTrip(n);
  }

  // ---------------------------------------------------------------------
  // The header

  /** The header the renderers write: the magic number line, one comment
      line (which carries its own leading '#'), the width and the height
      separated by a space, and the maximum channel value 255. */
  function Header(comment: string, w: nat, h: nat): (r: string)
    ensures (forall i :: 0 <= i < |comment| ==> comment[i] != '\n') ==>
            ReadHeader(r) == Some(HeaderInfo(comment, w, h, |r|))
  {
    var r := HeaderText(comment, Dec(w), Dec(h));
    if forall i :: 0 <= i < |comment| ==> comment[i] != '\n' then
      DecRoundTrip(w);
      DecRoundTrip(h);
      HeaderTextRoundTrip(comment, Dec(w), Dec(h), []);
      assert r + [] == r;
      r
    else
      r
  }

  /** The same layout with the two dimensions given as their texts. */
  function HeaderText(comment: string, dw: string, dh: string): string
  {
    "P6\n" + comment + "\n" + dw + " " + dh + "\n255\n"
  }

  datatype HeaderInfo = HeaderInfo(comment: string, width: nat, height: nat, payload: nat)

  /** Index of the first line break at or after i, or |s| when there is none. */
  function LineEnd(s: string, i: nat): (e: nat)
    requires i <= |s|
    ensures i <= e <= |s|
    ensures e < |s| ==> s[e] == '\n'
    ensures forall k :: i <= k < e ==> s[k] != '\n'
    decreases |s| - i
  {
    if i == |s| || s[i] == '\n' then i else LineEnd(s, i + 1)
  }

  /** Index of the first non-digit at or after i, or |s| when there is none. */
  function DigitsEnd(s: string, i: nat): (e: nat)
    requires i <= |s|
    ensures i <= e <= |s|
    ensures e < |s| ==> !IsDigit(s[e])
    ensures IsDigits(s[i..e])
    decreases |s| - i
  {
    if i == |s| || !IsDigit(s[i]) then i else DigitsEnd(s, i + 1)
  }

  /** The decimal number starting at i and the index just past it, or None
      when no digit starts at i. */
  function ReadNumber(s: string, i: nat): (r: Option<(nat, nat)>)
    requires i <= |s|
    ensures r.Some? ==> i < r.value.1 <= |s|
  {
    var e := DigitsEnd(s, i);
    if e == i then None else Some((DecValue(s[i..e]), e))
  }

  /** Whether s holds the text lit at index i. */
  predicate HasAt(s: string, i: nat, lit: string)
  {
    i + |lit| <= |s| && s[i..i + |lit|] == lit
  }

  /** The dimension line's "width height" starting at i, with the index just
      past the height, or None when it is not there. */
  function ReadDims(s: string, i: nat): (r: Option<(nat, nat, nat)>)
    requires i <= |s|
    ensures r.Some? ==> i < r.value.2 <= |s|
  {
    match ReadNumber(s, i)
    case None => None
    case Some((width, e)) =>
      if e == |s| || s[e] != ' ' then None
      else
        match ReadNumber(s, e + 1)
        case None => None
        case Some((height, e')) => Some((width, height, e'))
  }

  /** A reader for the header layout above: the comment, the two dimensions
      and the index where the payload starts, or None when s does not start
      with such a header. */
  function ReadHeader(s: string): (r: Option<HeaderInfo>)
    ensures r.Some? ==> HasAt(s, 0, "P6\n") && r.value.payload <= |s|
  {
    if !HasAt(s, 0, "P6\n") then None else ReadAfterComment(s, LineEnd(s, 3))
  }

  /** The rest of the header once the comment line is known to end at e. */
  function ReadAfterComment(s: string, e: nat): (r: Option<HeaderInfo>)
    requires 3 <= e <= |s|
    ensures r.Some? ==> r.value.payload <= |s|
  {
    if e == |s| then None else ReadMaxval(s, s[3..e], ReadDims(s, e + 1))
  }

  /** The maxval line after the dimensions d, when they were read. */
  function ReadMaxval(s: string, comment: string, d: Option<(nat, nat, nat)>): (r: Option<HeaderInfo>)
    ensures r.Some? ==> r.value.payload <= |s|
  {
    match d
    case None => None
    case Some((width, height, c)) =>
      if !HasAt(s, c, "\n255\n") then None
      else Some(HeaderInfo(comment, width, height, c + 5))
  }

  lemma {:induction false} LineEndAt(s: string, i: nat, k: nat)
    requires i <= k < |s| && s[k] == '\n'
    requires forall j :: i <= j < k ==> s[j] != '\n'
    ensures LineEnd(s, i) == k
    decreases k - i
  {
    if i < k {
      LineEndAt(s, i + 1, k);
    }
  }

  lemma {:induction false} DigitsEndAt(s: string, i: nat, k: nat)
    requires i <= k < |s| && !IsDigit(s[k])
    requires forall j :: i <= j < k ==> IsDigit(s[j])
    ensures DigitsEnd(s, i) == k
    decreases k - i
  {
    if i < k {
      DigitsEndAt(s, i + 1, k);
    }
  }

  /** Reading a header back recovers the comment, width and height, and
      finds the payload right after the header, whatever follows it. */
  lemma HeaderRoundTrip(comment: string, w: nat, h: nat, rest: string)
    requires forall i :: 0 <= i < |comment| ==> comment[i] != '\n'
    ensures ReadHeader(Header(comment, w, h) + rest) ==
            Some(HeaderInfo(comment, w, h, |Header(comment, w, h)|))
  {
    DecRoundTrip(w);
    DecRoundTrip(h);
    HeaderTextRoundTrip(comment, Dec(w), Dec(h), rest);
  }

  /** Where the comment, the width and the height of a header end. */
  function CommentEnd(comment: string): nat
  {
    3 + |comment|
  }

  function WidthEnd(comment: string, dw: string): nat
  {
    CommentEnd(comment) + 1 + |dw|
  }

  function HeightEnd(comment: string, dw: string, dh: string): nat
  {
    WidthEnd(comment, dw) + 1 + |dh|
  }

  /** The round trip for any two non-empty digit strings as the dimensions. */
  lemma HeaderTextRoundTrip(comment: string, dw: string, dh: string, rest: string)
    requires forall i :: 0 <= i < |comment| ==> comment[i] != '\n'
    requires |dw| > 0 && IsDigits(dw) && |dh| > 0 && IsDigits(dh)
    ensures ReadHeader(HeaderText(comment, dw, dh) + rest) ==
            Some(HeaderInfo(comment, DecValue(dw), DecValue(dh), |HeaderText(comment, dw, dh)|))
  {
    var s := HeaderText(comment, dw, dh) + rest;
    CommentLineOf(comment, dw, dh, rest);
    DimsOf(comment, dw, dh, rest);
    MaxvalOf(comment, dw, dh, rest);
    ReadHeaderAt(s, comment, DecValue(dw), DecValue(dh), CommentEnd(comment), HeightEnd(comment, dw, dh),
                 |HeaderText(comment, dw, dh)|);
  }

  /** In a header the comment line ends right after the comment. */
  lemma CommentLineOf(comment: string, dw: string, dh: string, rest: string)
    requires forall i :: 0 <= i < |comment| ==> comment[i] != '\n'
    ensures CommentEnd(comment) < |HeaderText(comment, dw, dh) + rest|
    ensures LineEnd(HeaderText(comment, dw, dh) + rest, 3) == CommentEnd(comment)
    ensures (HeaderText(comment, dw, dh) + rest)[3..CommentEnd(comment)] == comment
  {
    var s := HeaderText(comment, dw, dh) + rest;
    var q := "\n" + dw + " " + dh + "\n255\n" + rest;
    assert s == "P6\n" + comment + q;
    LineEndAfter("P6\n", comment, q);
  }

  /** In a header the dimension line reads back as the two numbers. */
  lemma DimsOf(comment: string, dw: string, dh: string, rest: string)
    requires |dw| > 0 && IsDigits(dw) && |dh| > 0 && IsDigits(dh)
    ensures CommentEnd(comment) + 1 <= |HeaderText(comment, dw, dh) + rest|
    ensures ReadDims(HeaderText(comment, dw, dh) + rest, CommentEnd(comment) + 1) ==
            Some((DecValue(dw), DecValue(dh), HeightEnd(comment, dw, dh)))
  {
    WidthOf(comment, dw, dh, rest);
    HeightOf(comment, dw, dh, rest);
    ReadDimsAt(HeaderText(comment, dw, dh) + rest, DecValue(dw), DecValue(dh), CommentEnd(comment) + 1,
               WidthEnd(comment, dw), HeightEnd(comment, dw, dh));
  }

  /** In a header the width reads back, followed by a space. */
  lemma WidthOf(comment: string, dw: string, dh: string, rest: string)
    requires |dw| > 0 && IsDigits(dw)
    ensures WidthEnd(comment, dw) < |HeaderText(comment, dw, dh) + rest|
    ensures ReadNumber(HeaderText(comment, dw, dh) + rest, CommentEnd(comment) + 1) ==
            Some((DecValue(dw), WidthEnd(comment, dw)))
    ensures (HeaderText(comment, dw, dh) + rest)[WidthEnd(comment, dw)] == ' '
  {
    var s := HeaderText(comment, dw, dh) + rest;
    var p := "P6\n" + comment + "\n";
    var i := CommentEnd(comment) + 1;
    assert s == p + dw + (" " + dh + "\n255\n" + rest);
    assert |p| == i;
    assert s[i..i + |dw|] == dw;
    ReadDigitsAt(s, i, dw, WidthEnd(comment, dw));
  }

  /** In a header the height reads back after the width's space. */
  lemma HeightOf(comment: string, dw: string, dh: string, rest: string)
    requires |dh| > 0 && IsDigits(dh)
    ensures ReadNumber(HeaderText(comment, dw, dh) + rest, WidthEnd(comment, dw) + 1) ==
            Some((DecValue(dh), HeightEnd(comment, dw, dh)))
  {
    var s := HeaderText(comment, dw, dh) + rest;
    var p := "P6\n" + comment + "\n" + dw + " ";
    var i := WidthEnd(comment, dw) + 1;
    assert s == p + dh + ("\n255\n" + rest);
    assert |p| == i;
    assert s[i..i + |dh|] == dh;
    ReadDigitsAt(s, i, dh, HeightEnd(comment, dw, dh));
  }

  /** A header starts with the magic number and ends with the maxval line,
      which is its last five characters. */
  lemma MaxvalOf(comment: string, dw: string, dh: string, rest: string)
    ensures HasAt(HeaderText(comment, dw, dh) + rest, 0, "P6\n")
    ensures |HeaderText(comment, dw, dh)| == HeightEnd(comment, dw, dh) + 5
    ensures HasAt(HeaderText(comment, dw, dh) + rest, HeightEnd(comment, dw, dh), "\n255\n")
  {
    var s := HeaderText(comment, dw, dh) + rest;
    var p := "P6\n" + comment + "\n" + dw + " " + dh;
    assert s == p + "\n255\n" + rest;
    assert s[..3] == "P6\n";
  }

  /** ReadDims once its two number scans are known to stop at b and c. */
  lemma ReadDimsAt(s: string, w: nat, h: nat, a: nat, b: nat, c: nat)
    requires a <= b < |s| && s[b] == ' '
    requires ReadNumber(s, a) == Some((w, b))
    requires ReadNumber(s, b + 1) == Some((h, c))
    ensures ReadDims(s, a) == Some((w, h, c))
  {
  }

  /** ReadHeader once its line scan and its dimension read are known. */
  lemma ReadHeaderAt(s: string, comment: string, w: nat, h: nat, a: nat, c: nat, n: nat)
    requires 3 <= a < |s| && HasAt(s, 0, "P6\n")
    requires LineEnd(s, 3) == a && s[3..a] == comment
    requires ReadDims(s, a + 1) == Some((w, h, c)) && HasAt(s, c, "\n255\n") && n == c + 5
    ensures ReadHeader(s) == Some(HeaderInfo(comment, w, h, n))
  {
    assert ReadMaxval(s, comment, Some((w, h, c))) == Some(HeaderInfo(comment, w, h, n));
  }

  /** A line break right after a single-line text t ends the line. */
  lemma LineEndAfter(p: string, t: string, q: string)
    requires forall k :: 0 <= k < |t| ==> t[k] != '\n'
    requires |q| > 0 && q[0] == '\n'
    ensures LineEnd(p + t + q, |p|) == |p| + |t|
  {
    var s := p + t + q;
    forall j | |p| <= j < |p| + |t|
      ensures s[j] != '\n'
    {
      assert s[j] == t[j - |p|];
    }
    LineEndAt(s, |p|, |p| + |t|);
  }

  /** A non-empty digit string at i, followed by a non-digit, reads back as
      the number it denotes. */
  lemma ReadDigitsAt(s: string, i: nat, d: string, e: nat)
    requires |d| > 0 && IsDigits(d) && e == i + |d|
    requires e < |s| && s[i..e] == d && !IsDigit(s[e])
    ensures ReadNumber(s, i) == Some((DecValue(d), e))
  {
    forall j | i <= j < i + |d|
      ensures IsDigit(s[j])
    {
      assert s[j] == d[j - i];
    }
    DigitsEndAt(s, i, i + |d|);
  }

  // ---------------------------------------------------------------------
  // The payload

  /** What is written for the first w pixels of row y, px(x, y) being what
      is written for pixel (x, y). */
  function RowScan(w: nat, y: nat, px: (nat, nat) -> string): string
  {
    if w == 0 then [] else RowScan(w - 1, y, px) + px(w - 1, y)
  }

  /** What is written for the first h rows of w pixels, in row-major order. */
  function Scan(w: nat, h: nat, px: (nat, nat) -> string): string
  {
    if h == 0 then [] else Scan(w, h - 1, px) + RowScan(w, h - 1, px)
  }

  /** Writing pixel (x, y) after the first x pixels of row y extends the
      row by one pixel. */
  lemma AppendPixel(prefix: string, out: string, x: nat, y: nat,
                    px: (nat, nat) -> string, bytes: string)
    requires out == prefix + RowScan(x, y, px)
    requires bytes == px(x, y)
    ensures out + bytes == prefix + RowScan(x + 1, y, px)
  {
    assert RowScan(x + 1, y, px) == RowScan(x, y, px) + px(x, y);
  }

  /** A finished row of w pixels completes row y of the scan. */
  lemma FinishRow(header: string, out: string, w: nat, y: nat, px: (nat, nat) -> string)
    requires out == header + Scan(w, y, px) + RowScan(w, y, px)
    ensures out == header + Scan(w, y + 1, px)
  {
    assert Scan(w, y + 1, px) == Scan(w, y, px) + RowScan(w, y, px);
  }

  /** Three equal bytes of shade b. */
  function Triple(b: nat): (s: string)
    requires b < 256
    ensures |s| == 3 && s[0] == s[1] == s[2] && s[0] as int == b
  {
    [b as char, b as char, b as char]
  }

  /** Where row y starts in a scan of rows of w three-character pixels. */
  function RowStart(w: nat, y: nat): nat
  {
    if y == 0 then 0 else RowStart(w, y - 1) + 3 * w
  }

  /** Row y starts after y full rows: 3 y w characters. */
  lemma {:induction false} RowStartIsProduct(w: nat, y: nat)
    ensures RowStart(w, y) == 3 * (y * w)
  {
    if y > 0 {
      RowStartIsProduct(w, y - 1);
      assert y * w == (y - 1) * w + w;
    }
  }

  /** When every pixel writes exactly three characters, a row of w pixels is
      3 w characters and pixel x sits at offset 3 x. */
  lemma {:induction false} RowScanLayout(w: nat, y: nat, px: (nat, nat) -> string)
    requires forall x :: 0 <= x < w ==> |px(x, y)| == 3
    ensures |RowScan(w, y, px)| == 3 * w
    ensures forall x :: 0 <= x < w ==> RowScan(w, y, px)[3 * x..3 * x + 3] == px(x, y)
  {
    if w > 0 {
      RowScanLayout(w - 1, y, px);
      var r := RowScan(w - 1, y, px);
      assert RowScan(w, y, px) == r + px(w - 1, y);
      forall x | 0 <= x < w
        ensures RowScan(w, y, px)[3 * x..3 * x + 3] == px(x, y)
      {
        if x < w - 1 {
          SliceOfLeft(r, px(w - 1, y), 3 * x, 3 * x + 3);
        } else {
          SliceOfRight(r, px(w - 1, y), 0, 3, 3 * x, 3 * x + 3);
          assert px(w - 1, y)[0..3] == px(w - 1, y);
        }
      }
    }
  }

  /** So h rows of w three-character pixels are 3 w h characters. */
  lemma {:induction false} ScanLength(w: nat, h: nat, px: (nat, nat) -> string)
    requires forall x, y :: 0 <= x < w && 0 <= y < h ==> |px(x, y)| == 3
    ensures |Scan(w, h, px)| == RowStart(w, h)
  {
    if h > 0 {
      ScanLength(w, h - 1, px);
      RowScanLayout(w, h - 1, px);
    }
  }

  /** Pixel (x, y) sits 3 x characters into row y: three characters per
      pixel, in row-major order. */
  lemma {:induction false} ScanPixel(w: nat, h: nat, px: (nat, nat) -> string, x: nat, y: nat)
    requires forall x, y :: 0 <= x < w && 0 <= y < h ==> |px(x, y)| == 3
    requires x < w && y < h
    ensures RowStart(w, y) + 3 * x + 3 <= |Scan(w, h, px)|
    ensures Scan(w, h, px)[RowStart(w, y) + 3 * x..RowStart(w, y) + 3 * x + 3] == px(x, y)
  {
    var s := Scan(w, h - 1, px);
    var r := RowScan(w, h - 1, px);
    assert Scan(w, h, px) == s + r;
    ScanLength(w, h - 1, px);
    RowScanLayout(w, h - 1, px);
    var o := RowStart(w, y) + 3 * x;
    if y < h - 1 {
      ScanPixel(w, h - 1, px, x, y);
      SliceOfLeft(s, r, o, o + 3);
    } else {
      SliceOfRight(s, r, 3 * x, 3 * x + 3, o, o + 3);
    }
  }

  /** After a header hd, pixel (x, y) of the scan sits at offset o. */
  lemma StreamPixel(hd: string, w: nat, h: nat, px: (nat, nat) -> string, x: nat, y: nat, o: nat)
    requires forall x, y :: 0 <= x < w && 0 <= y < h ==> |px(x, y)| == 3
    requires x < w && y < h && o == |hd| + RowStart(w, y) + 3 * x
    ensures o + 3 <= |hd + Scan(w, h, px)|
    ensures (hd + Scan(w, h, px))[o..o + 3] == px(x, y)
  {
    ScanPixel(w, h, px, x, y);
    var k := RowStart(w, y) + 3 * x;
    SliceOfRight(hd, Scan(w, h, px), k, k + 3, o, o + 3);
  }

  /** A slice within the left operand of a concatenation. */
  lemma SliceOfLeft(a: string, b: string, i: nat, j: nat)
    requires i <= j <= |a|
    ensures (a + b)[i..j] == a[i..j]
  {
  }

  /** A slice within the right operand of a concatenation, at lo..hi of the
      whole. */
  lemma SliceOfRight(a: string, b: string, i: nat, j: nat, lo: nat, hi: nat)
    requires i <= j <= |b| && lo == |a| + i && hi == |a| + j
    ensures (a + b)[lo..hi] == b[i..j]
  {
  }
}
