/**
 * Visitor: glyphs (symbols and rows) accept a visitor, which calls back the
 * overload for the glyph's own kind. Each visit writes lines of text; the
 * lines are returned here in order.
 */
module Visitor {
  import opened Wrappers
  import Decimal

  /** The elements. A `Row` holds its number and its element count as `int`s. */
  datatype Glyph = Symbol(symbol: char) | Row(rowNumber: int, elementsInRow: int)

  /** The `Symbol` constructor; the character defaults to 'a'. */
  function NewSymbol(symbol: char := 'a'): (g: Glyph)
    ensures g.Symbol? && g.symbol == symbol
  {
    Symbol(symbol)
  }

  /** The `Row` constructor; the getters give back its arguments. */
  function NewRow(rowNumber: int, elementsInRow: int): (g: Glyph)
    ensures g.Row? && g.rowNumber == rowNumber && g.elementsInRow == elementsInRow
  {
    Row(rowNumber, elementsInRow)
  }

  const RowWord: string := "Row "
  const WithWord: string := " with "
  const ElementsWord: string := " elements"

  /** `get_glyph_info`: the symbol as a one-character string, or a row description. */
  function GlyphInfo(g: Glyph): (s: string)
    ensures g.Symbol? ==> s == [g.symbol]
    ensures g.Row? ==> |s| > |RowWord| && s[..|RowWord|] == RowWord
  {
    match g
    case Symbol(c) => [c]
    case Row(n, m) =>
      RowWord + Decimal.IntToString(n) + WithWord + Decimal.IntToString(m) + ElementsWord
  }

  /** Index of the first space in `s`, or `|s|` when there is none. */
  function FirstSpace(s: string): (k: nat)
    ensures k <= |s|
    ensures forall i :: 0 <= i < k ==> s[i] != ' '
    ensures k < |s| ==> s[k] == ' '
  {
    if s == [] then 0
    else if s[0] == ' ' then 0
    else 1 + FirstSpace(s[1..])
  }

  /** Reads "<n> with <m>", the middle of a row description. */
  function ParseRowMiddle(s: string): (r: Option<(int, int)>)
  {
    var k := FirstSpace(s);
    if |s| - k < |WithWord| || s[k..k + |WithWord|] != WithWord then None
    else
      match (Decimal.ParseInt(s[..k]), Decimal.ParseInt(s[k + |WithWord|..]))
      case (Some(n), Some(m)) => Some((n, m))
      case _ => None
  }

  /** Reads back a glyph from its info text. */
  function ParseGlyphInfo(s: string): (r: Option<Glyph>)
    ensures |s| == 1 ==> r == Some(Symbol(s[0]))
  {
    if |s| == 1 then Some(Symbol(s[0]))
    else if |s| < |RowWord| + |ElementsWord| then None
    else if s[..|RowWord|] != RowWord || s[|s| - |ElementsWord|..] != ElementsWord then None
    else
      match ParseRowMiddle(s[|RowWord|..|s| - |ElementsWord|])
      case Some((n, m)) => Some(Row(n, m))
      case None => None
  }

  lemma {:induction false} FirstSpaceOfJoin(a: string, b: string)
    requires ' ' !in a
    requires |b| > 0 && b[0] == ' '
    ensures FirstSpace(a + b) == |a|
    decreases |a|
  {
    if a == [] {
      assert a + b == b;
    } else {
      assert (a + b)[1..] == a[1..] + b;
      FirstSpaceOfJoin(a[1..], b);
    }
  }

  lemma RowMiddleRoundTrip(n: int, m: int)
    ensures ParseRowMiddle(Decimal.IntToString(n) + WithWord + Decimal.IntToString(m)) == Some((n, m))
  {
    var a := Decimal.IntToString(n);
    var b := Decimal.IntToString(m);
    var s := a + WithWord + b;
    Decimal.IntToStringHasNoSpace(n);
    assert s == a + (WithWord + b);
    FirstSpaceOfJoin(a, WithWord + b);
    assert s[..|a|] == a;
    assert s[|a|..|a| + |WithWord|] == WithWord;
    assert s[|a| + |WithWord|..] == b;
    Decimal.IntRoundTrip(n);
    Decimal.IntRoundTrip(m);
  }

  /** The info text identifies the glyph: reading it back gives the glyph. */
  lemma GlyphInfoRoundTrip(g: Glyph)
    ensures ParseGlyphInfo(GlyphInfo(g)) == Some(g)
  {
    if g.Row? {
      var mid := Decimal.IntToString(g.rowNumber) + WithWord + Decimal.IntToString(g.elementsInRow);
      var s := GlyphInfo(g);
      assert s == RowWord + mid + ElementsWord;
      assert s[|RowWord|..|s| - |ElementsWord|] == mid;
      assert s[|s| - |ElementsWord|..] == ElementsWord;
      RowMiddleRoundTrip(g.rowNumber, g.elementsInRow);
    }
  }

  /** Different glyphs have different info texts. */
  lemma GlyphInfoInjective(g: Glyph, h: Glyph)
    ensures GlyphInfo(g) == GlyphInfo(h) <==> g == h
  {
    if GlyphInfo(g) == GlyphInfo(h) {
      GlyphInfoRoundTrip(g);
      GlyphInfoRoundTrip(h);
    }
  }

  /** The concrete visitors. */
  datatype VisitorKind = SimpleVisitor | AdvancedVisitor

  /** The first line every visit writes. */
  function VisitorName(v: VisitorKind): string
  {
    match v
    case SimpleVisitor => "Simple visitor"
    case AdvancedVisitor => "Advanced visitor"
  }

  const RowNumberLabel: string := "Row number: "
  const ElementsLabel: string := "Number of elements in row: "
  const ProductLabel: string := "Row * Number of elements = "

  /** `visit(Symbol&)` of each visitor: its name, then the symbol's info. */
  function VisitSymbol(v: VisitorKind, symbol: char): (lines: seq<string>)
    ensures |lines| == 2 && lines[0] == VisitorName(v)
    ensures ParseGlyphInfo(lines[1]) == Some(Symbol(symbol))
  {
    [VisitorName(v), GlyphInfo(Symbol(symbol))]
  }

  /** `visit(Row&)` of each visitor. */
  function VisitRow(v: VisitorKind, rowNumber: int, elementsInRow: int): (lines: seq<string>)
    ensures |lines| == (if v == SimpleVisitor then 2 else 4)
    ensures lines[0] == VisitorName(v)
  {
    match v
    case SimpleVisitor =>
      [VisitorName(v), GlyphInfo(Row(rowNumber, elementsInRow))]
    case AdvancedVisitor =>
      [ VisitorName(v),
        RowNumberLabel + Decimal.IntToString(rowNumber),
        ElementsLabel + Decimal.IntToString(elementsInRow),
        ProductLabel + Decimal.IntToString(elementsInRow * rowNumber) ]
  }

  /** `accept`: the glyph hands itself to the overload for its own kind. */
  function Accept(g: Glyph, v: VisitorKind): (lines: seq<string>)
    ensures |lines| == (if g.Row? && v == AdvancedVisitor then 4 else 2)
    ensures lines[0] == VisitorName(v)
  {
    match g
    case Symbol(c) => VisitSymbol(v, c)
    case Row(n, m) => VisitRow(v, n, m)
  }

  /** Whatever it visits, the simple visitor's second line reads back as that glyph. */
  lemma SimpleVisitorShowsGlyph(g: Glyph)
    ensures |Accept(g, SimpleVisitor)| == 2
    ensures ParseGlyphInfo(Accept(g, SimpleVisitor)[1]) == Some(g)
  {
    GlyphInfoRoundTrip(g);
  }

  /** The text after a label, read as an integer. */
  function ValueAfter(prefix: string, line: string): Option<int>
  {
    if |line| >= |prefix| && line[..|prefix|] == prefix then Decimal.ParseInt(line[|prefix|..]) else None
  }

  lemma LabelledRoundTrip(prefix: string, i: int)
    ensures ValueAfter(prefix, prefix + Decimal.IntToString(i)) == Some(i)
  {
    var line := prefix + Decimal.IntToString(i);
    assert line[..|prefix|] == prefix;
    assert line[|prefix|..] == Decimal.IntToString(i);
    Decimal.IntRoundTrip(i);
  }

  /**
   * The advanced visitor on a row reports the row number, the element count
   * and their product, each readable back from its line.
   */
  lemma AdvancedVisitorReportsRow(n: int, m: int)
    ensures var lines := Accept(Row(n, m), AdvancedVisitor);
      |lines| == 4 &&
      ValueAfter(RowNumberLabel, lines[1]) == Some(n) &&
      ValueAfter(ElementsLabel, lines[2]) == Some(m) &&
      ValueAfter(ProductLabel, lines[3]) == Some(n * m)
  {
    LabelledRoundTrip(RowNumberLabel, n);
    LabelledRoundTrip(ElementsLabel, m);
    LabelledRoundTrip(ProductLabel, m * n);
  }

  /**
   * The demonstration: row (2, 3) visited by both visitors, then row (3, 13)
   * by the advanced one, with an empty line between visits.
   */
  function Client(): (lines: seq<string>)
    ensures |lines| == 12
    ensures lines[2] == "" && lines[7] == ""
  {
    Accept(NewRow(2, 3), SimpleVisitor) + [""] +
    Accept(NewRow(2, 3), AdvancedVisitor) + [""] +
    Accept(NewRow(3, 13), AdvancedVisitor)
  }

  lemma SimpleVisitRowExample()
    ensures Accept(Row(2, 3), SimpleVisitor) == ["Simple visitor", "Row 2 with 3 elements"]
  {
    assert Decimal.IntToString(2) == "2";
    assert Decimal.IntToString(3) == "3";
    assert GlyphInfo(Row(2, 3)) == "Row 2 with 3 elements";
  }

  lemma AdvancedVisitRowExample1()
    ensures Accept(Row(2, 3), AdvancedVisitor) ==
            ["Advanced visitor", "Row number: 2", "Number of elements in row: 3",
             "Row * Number of elements = 6"]
  {
    assert Decimal.IntToString(2) == "2";
    assert Decimal.IntToString(3) == "3";
    assert Decimal.IntToString(6) == "6";
    assert RowNumberLabel + "2" == "Row number: 2";
    assert ElementsLabel + "3" == "Number of elements in row: 3";
    assert ProductLabel + "6" == "Row * Number of elements = 6";
  }

  lemma AdvancedVisitRowExample2()
    ensures Accept(Row(3, 13), AdvancedVisitor) ==
            ["Advanced visitor", "Row number: 3", "Number of elements in row: 13",
             "Row * Number of elements = 39"]
  {
    assert Decimal.IntToString(3) == "3";
    assert Decimal.IntToString(13) == "13";
    assert Decimal.IntToString(39) == "39";
    assert RowNumberLabel + "3" == "Row number: 3";
    assert ElementsLabel + "13" == "Number of elements in row: 13";
    assert ProductLabel + "39" == "Row * Number of elements = 39";
  }

  /** The whole output of the demonstration, as listed beside it. */
  lemma ClientOutput()
    ensures Client() ==
            ["Simple visitor", "Row 2 with 3 elements", "",
             "Advanced visitor", "Row number: 2", "Number of elements in row: 3",
             "Row * Number of elements = 6", "",
             "Advanced visitor", "Row number: 3", "Number of elements in row: 13",
             "Row * Number of elements = 39"]
  {
    SimpleVisitRowExample();
    AdvancedVisitRowExample1();
    AdvancedVisitRowExample2();
  }
}
