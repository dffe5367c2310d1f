/**
 * Bootstrap 4 grid classes (src/grid.rs): column sizes render as
 * `col` + breakpoint infix + width suffix (`col`, `col-md`, `col-xl-7`,
 * `col-sm-auto`); a column keeps a set of sizes, a row a list of columns.
 */
module Grid {
  import opened Strings

  /** Rust's `u8`, the type of a sized column width. */
  newtype Byte = x: int | 0 <= x < 256

  datatype Breakpoint = ExtraSmall | Small | Medium | Large | ExtraLarge

  /** `Display for Breakpoint`. */
  function BreakpointText(b: Breakpoint): string
  {
    match b
    case ExtraSmall => ""
    case Small => "-sm"
    case Medium => "-md"
    case Large => "-lg"
    case ExtraLarge => "-xl"
  }

  datatype ColumnWidth = None | Sized(n: Byte) | Auto

  /** `From<u8> for ColumnWidth`. */
  function WidthFromByte(v: Byte): (w: ColumnWidth)
    ensures w.Sized? && w.n == v
  {
    Sized(v)
  }

  function DigitChar(d: nat): (c: char)
    requires d < 10
    ensures '0' <= c <= '9'
  {
    ('0' as int + d) as char
  }

  /** The decimal digits of `n` without leading zeros, as `{n}` writes an integer. */
  function DecimalText(n: nat): (r: string)
    ensures |r| >= 1
    ensures forall i :: 0 <= i < |r| ==> '0' <= r[i] <= '9'
    ensures n >= 10 ==> r[0] != '0'
  {
    if n < 10 then [DigitChar(n)] else DecimalText(n / 10) + [DigitChar(n % 10)]
  }

  /** The value of a string of decimal digits: the inverse of `DecimalText`. */
  function DecimalValue(s: string): nat
    requires forall i :: 0 <= i < |s| ==> '0' <= s[i] <= '9'
  {
    if s == [] then 0 else 10 * DecimalValue(s[..|s| - 1]) + (s[|s| - 1] as int - '0' as int)
  }

  lemma {:induction false} DecimalRoundTrip(n: nat)
    ensures DecimalValue(DecimalText(n)) == n
    decreases n
  {
    var r := DecimalText(n);
    if n >= 10 {
      assert r[..|r| - 1] == DecimalText(n / 10);
      DecimalRoundTrip(n / 10);
    }
  }

  /** `Display for ColumnWidth`. */
  function WidthText(w: ColumnWidth): string
  {
    match w
    case None => ""
    case Sized(n) => "-" + DecimalText(n as nat)
    case Auto => "-auto"
  }

  datatype ColumnSize = ColumnSize(breakpoint: Breakpoint, width: ColumnWidth)

  /** The derived `Default`: the extra-small breakpoint with no width. */
  function DefaultColumnSize(): ColumnSize
  {
    ColumnSize(ExtraSmall, None)
  }

  /** `ColumnSize::new`. */
  function NewColumnSize(b: Breakpoint, w: ColumnWidth): (r: ColumnSize)
    ensures r.breakpoint == b && r.width == w
  {
    ColumnSize(b, w)
  }

  /** `ColumnSize::with_breakpoint`. */
  function WithBreakpoint(s: ColumnSize, b: Breakpoint): (r: ColumnSize)
    ensures r.breakpoint == b && r.width == s.width
  {
    ColumnSize(b, s.width)
  }

  /** `ColumnSize::with_width`. */
  function WithWidth(s: ColumnSize, v: Byte): (r: ColumnSize)
    ensures r.breakpoint == s.breakpoint && r.width == Sized(v)
  {
    ColumnSize(s.breakpoint, Sized(v))
  }

  /** `ColumnSize::with_auto_width`. */
  function WithAutoWidth(s: ColumnSize): (r: ColumnSize)
    ensures r.breakpoint == s.breakpoint && r.width == Auto
  {
    ColumnSize(s.breakpoint, Auto)
  }

  /** `Display for ColumnSize`: the Bootstrap class name of the size. */
  function ColumnSizeText(s: ColumnSize): (r: string)
    ensures |r| >= 3 && r[..3] == "col"
  {
    "col" + BreakpointText(s.breakpoint) + WidthText(s.width)
  }

  lemma ColumnSizeExamples()
    ensures ColumnSizeText(DefaultColumnSize()) == "col"
    ensures ColumnSizeText(ColumnSize(ExtraLarge, Sized(7))) == "col-xl-7"
    ensures ColumnSizeText(ColumnSize(Medium, Auto)) == "col-md-auto"
    ensures ColumnSizeText(ColumnSize(ExtraSmall, Sized(12))) == "col-12"
  {
    assert DecimalText(7) == "7";
    assert DecimalText(1) == "1";
    assert DecimalText(12) == "12";
  }

  /** A sized width is a dash followed by the decimal digits of its value. */
  lemma SizedWidthDigits(w: ColumnWidth)
    ensures w.Sized? ==> |WidthText(w)| >= 2 && WidthText(w)[1..] == DecimalText(w.n as nat)
  {
  }

  /** The character after a width's leading dash is a digit or the `a` of `auto`, never a breakpoint letter. */
  lemma WidthSecondChar(w: ColumnWidth)
    ensures w == None <==> WidthText(w) == ""
    ensures w != None ==> |WidthText(w)| >= 2 && WidthText(w)[0] == '-'
    ensures w != None ==> WidthText(w)[1] == 'a' || '0' <= WidthText(w)[1] <= '9'
  {
  }

  /** Distinct widths render as distinct suffixes. */
  lemma WidthTextInjective(a: ColumnWidth, b: ColumnWidth)
    ensures WidthText(a) == WidthText(b) ==> a == b
  {
    if WidthText(a) == WidthText(b) && a != b {
      WidthSecondChar(a);
      WidthSecondChar(b);
      SizedWidthDigits(a);
      SizedWidthDigits(b);
      if a.Sized? && b.Sized? {
        DecimalRoundTrip(a.n as nat);
        DecimalRoundTrip(b.n as nat);
      }
      assert false;
    }
  }

  /** Where the breakpoint infix ends in `breakpoint + width`. */
  lemma BreakpointWidthChars(b: Breakpoint, w: ColumnWidth)
    ensures var s := BreakpointText(b) + WidthText(w);
      (b == ExtraSmall ==> s == WidthText(w))
      && (b != ExtraSmall ==> |s| >= 3 && s[..3] == BreakpointText(b) && s[1] == BreakpointText(b)[1])
  {
  }

  lemma BreakpointDetermined(b1: Breakpoint, w1: ColumnWidth, b2: Breakpoint, w2: ColumnWidth)
    requires BreakpointText(b1) + WidthText(w1) == BreakpointText(b2) + WidthText(w2)
    ensures b1 == b2
  {
    if b1 != b2 {
      BreakpointWidthChars(b1, w1);
      BreakpointWidthChars(b2, w2);
      WidthSecondChar(w1);
      WidthSecondChar(w2);
      assert false;
    }
  }

  /** Distinct column sizes render as distinct class names. */
  lemma ColumnSizeTextInjective(a: ColumnSize, b: ColumnSize)
    ensures ColumnSizeText(a) == ColumnSizeText(b) ==> a == b
  {
    if ColumnSizeText(a) == ColumnSizeText(b) {
      var ba, wa := BreakpointText(a.breakpoint), WidthText(a.width);
      var bb, wb := BreakpointText(b.breakpoint), WidthText(b.width);
      ConcatAssoc("col", ba, wa);
      ConcatAssoc("col", bb, wb);
      SplitAfter("col", ba + wa);
      SplitAfter("col", bb + wb);
      BreakpointDetermined(a.breakpoint, a.width, b.breakpoint, b.width);
      SplitAfter(ba, wa);
      SplitAfter(bb, wb);
      WidthTextInjective(a.width, b.width);
    }
  }

  // ---------------------------------------------------------------------------
  // Columns and rows

  /** A column; `sizes` is a `HashSet`, whose membership follows the derived `==` on both fields. */
  datatype Column = Column(sizes: set<ColumnSize>, content: string)

  /** `Column::new`, and `From<T> for Column`. */
  function NewColumn(content: string): (c: Column)
    ensures c.sizes == {} && c.content == content
  {
    Column({}, content)
  }

  /** `Column::with_size`: inserts the size into the set. */
  function WithSize(c: Column, b: Breakpoint, w: ColumnWidth): (r: Column)
    ensures r.sizes == c.sizes + {ColumnSize(b, w)} && r.content == c.content
  {
    c.(sizes := c.sizes + {NewColumnSize(b, w)})
  }

  /** Adding an equal size a second time changes nothing. */
  lemma WithSizeIdempotent(c: Column, b: Breakpoint, w: ColumnWidth)
    ensures WithSize(WithSize(c, b, w), b, w) == WithSize(c, b, w)
    ensures ColumnSize(b, w) in c.sizes ==> WithSize(c, b, w) == c
  {
  }

  /** The order in which sizes are added does not matter. */
  lemma WithSizeCommutes(c: Column, b1: Breakpoint, w1: ColumnWidth, b2: Breakpoint, w2: ColumnWidth)
    ensures WithSize(WithSize(c, b1, w1), b2, w2) == WithSize(WithSize(c, b2, w2), b1, w1)
  {
  }

  /**
   * The hash of a size looks only at the breakpoint, but equality compares both
   * fields: two widths on one breakpoint are two entries.
   */
  lemma SameBreakpointTwoWidths(content: string, b: Breakpoint, w1: ColumnWidth, w2: ColumnWidth)
    requires w1 != w2
    ensures var c := WithSize(WithSize(NewColumn(content), b, w1), b, w2);
      ColumnSize(b, w1) in c.sizes && ColumnSize(b, w2) in c.sizes && |c.sizes| == 2
  {
    var c := WithSize(WithSize(NewColumn(content), b, w1), b, w2);
    assert c.sizes == {ColumnSize(b, w1), ColumnSize(b, w2)};
  }

  datatype Row = Row(columns: seq<Column>)

  /** `Row::new`. */
  function NewRow(): (r: Row)
    ensures r.columns == []
  {
    Row([])
  }

  /** `Row::with_column`: pushes at the end. */
  function WithColumn(r: Row, c: Column): (r': Row)
    ensures |r'.columns| == |r.columns| + 1
    ensures r'.columns[..|r.columns|] == r.columns && r'.columns[|r.columns|] == c
  {
    Row(r.columns + [c])
  }
}
