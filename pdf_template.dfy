/** The report PDF helpers: the text sanitiser that spells Turkish letters
    and '&' in ASCII for the PDF's built-in font, the table layout (column
    widths and positions, cell text with truncation, rows and page breaks),
    and the footer written on every page when the document is saved.
    Drawing itself (rectangles, colours, fonts, line wrapping) is left to
    the PDF library and not modelled. Lengths are millimetres on A4. */
module PdfTemplate {
  import opened Common

  const PageHeight := 297
  const MarginBottom := 25
  const MarginLeft := 20
  const MarginRight := 20
  const PageWidth := 210
  const HeaderHeight := 30
  const FooterHeight := 20
  const ContentWidth := 170

  // ---------------------------------------------------------------------
  // safeText
  // ---------------------------------------------------------------------

  /** `s.replace(/c/g, r)`. */
  function ReplaceAll(s: string, c: char, r: string): (t: string)
    ensures c !in s ==> t == s
  {
    if s == [] then [] else (if s[0] == c then r else [s[0]]) + ReplaceAll(s[1..], c, r)
  }

  /** The replacements of `safeText`, in the order they are chained. */
  const Rules: seq<(char, string)> := [
    ('&', "ve"),
    ('\U{0131}', "i"), ('\U{0130}', "I"),
    ('\U{011F}', "g"), ('\U{011E}', "G"),
    ('\U{00FC}', "u"), ('\U{00DC}', "U"),
    ('\U{015F}', "s"), ('\U{015E}', "S"),
    ('\U{00F6}', "o"), ('\U{00D6}', "O"),
    ('\U{00E7}', "c"), ('\U{00C7}', "C")]

  function ApplyRules(s: string, rules: seq<(char, string)>): string
    decreases |rules|
  {
    if rules == [] then s else ApplyRules(ReplaceAll(s, rules[0].0, rules[0].1), rules[1..])
  }

  /** `safeText`: the empty string for a missing or empty input, otherwise
      the input with the replacements applied one after another. */
  function SafeText(text: Option<string>): string {
    if !Truthy(text) then "" else ApplyRules(text.value, Rules)
  }

  /** The characters `safeText` rewrites. */
  predicate Special(c: char) {
    c == '&' || c == '\U{0131}' || c == '\U{0130}' || c == '\U{011F}' || c == '\U{011E}' || c == '\U{00FC}' || c == '\U{00DC}'
    || c == '\U{015F}' || c == '\U{015E}' || c == '\U{00F6}' || c == '\U{00D6}' || c == '\U{00E7}' || c == '\U{00C7}'
  }

  /** One character's ASCII spelling, written out on its own. */
  function Spell(c: char): (r: string)
    ensures |r| == if c == '&' then 2 else 1
    ensures forall i | 0 <= i < |r| :: !Special(r[i])
    ensures !Special(c) ==> r == [c]
  {
    if c == '&' then "ve"
    else if c == '\U{0131}' then "i" else if c == '\U{0130}' then "I"
    else if c == '\U{011F}' then "g" else if c == '\U{011E}' then "G"
    else if c == '\U{00FC}' then "u" else if c == '\U{00DC}' then "U"
    else if c == '\U{015F}' then "s" else if c == '\U{015E}' then "S"
    else if c == '\U{00F6}' then "o" else if c == '\U{00D6}' then "O"
    else if c == '\U{00E7}' then "c" else if c == '\U{00C7}' then "C"
    else [c]
  }

  /** Every character spelled, in order. */
  function SpellAll(s: string): (r: string)
    ensures |r| == |s| + CountChar(s, '&')
    ensures forall i | 0 <= i < |r| :: !Special(r[i])
  {
    if s == [] then []
    else
      var head := Spell(s[0]);
      var rest := SpellAll(s[1..]);
      assert forall i | 0 <= i < |head + rest| :: (head + rest)[i] == if i < |head| then head[i] else rest[i - |head|];
      head + rest
  }

  lemma {:induction false} ReplaceAllConcat(a: string, b: string, c: char, r: string)
    ensures ReplaceAll(a + b, c, r) == ReplaceAll(a, c, r) + ReplaceAll(b, c, r)
    decreases |a|
  {
    if a != [] {
      assert (a + b)[1..] == a[1..] + b;
      ReplaceAllConcat(a[1..], b, c, r);
    } else {
      assert a + b == b;
    }
  }

  lemma {:induction false} ApplyRulesConcat(a: string, b: string, rules: seq<(char, string)>)
    ensures ApplyRules(a + b, rules) == ApplyRules(a, rules) + ApplyRules(b, rules)
    decreases |rules|
  {
    if rules != [] {
      ReplaceAllConcat(a, b, rules[0].0, rules[0].1);
      ApplyRulesConcat(ReplaceAll(a, rules[0].0, rules[0].1), ReplaceAll(b, rules[0].0, rules[0].1), rules[1..]);
    }
  }

  /** The replacement the chain gives a single character: the first rule
      for it, if any. */
  function Lookup(rules: seq<(char, string)>, c: char): string
    decreases |rules|
  {
    if rules == [] then [c] else if rules[0].0 == c then rules[0].1 else Lookup(rules[1..], c)
  }

  /** Every rule rewrites a special character into plain ones. */
  predicate WellFormedRules(rules: seq<(char, string)>) {
    forall j | 0 <= j < |rules| :: Special(rules[j].0) && forall i | 0 <= i < |rules[j].1| :: !Special(rules[j].1[i])
  }

  lemma {:induction false} ApplyRulesPlain(s: string, rules: seq<(char, string)>)
    requires WellFormedRules(rules)
    requires forall i | 0 <= i < |s| :: !Special(s[i])
    ensures ApplyRules(s, rules) == s
    decreases |rules|
  {
    if rules != [] {
      assert rules[0].0 !in s;
      ApplyRulesPlain(s, rules[1..]);
    }
  }

  lemma {:induction false} ApplyRulesOneChar(c: char, rules: seq<(char, string)>)
    requires WellFormedRules(rules)
    ensures ApplyRules([c], rules) == Lookup(rules, c)
    decreases |rules|
  {
    if rules != [] {
      if rules[0].0 == c {
        assert ReplaceAll([c], c, rules[0].1) == rules[0].1;
        ApplyRulesPlain(rules[0].1, rules[1..]);
      } else {
        assert ReplaceAll([c], rules[0].0, rules[0].1) == [c];
        ApplyRulesOneChar(c, rules[1..]);
      }
    }
  }

  lemma {:induction false} LookupMiss(rules: seq<(char, string)>, c: char)
    requires forall j | 0 <= j < |rules| :: rules[j].0 != c
    ensures Lookup(rules, c) == [c]
    decreases |rules|
  {
    if rules != [] {
      LookupMiss(rules[1..], c);
    }
  }

  lemma RulesWellFormed()
    ensures WellFormedRules(Rules)
  {
    forall j | 0 <= j < |Rules|
      ensures Special(Rules[j].0) && forall i | 0 <= i < |Rules[j].1| :: !Special(Rules[j].1[i])
    {
    }
  }

  /** Looking a character up in the table agrees with spelling it. */
  lemma LookupIsSpell(c: char)
    ensures Lookup(Rules, c) == Spell(c)
  {
    if !Special(c) {
      LookupMiss(Rules, c);
    } else if c == '&' {
      LookupHit(Rules, 0, c);
    } else if c == '\U{0131}' {
      LookupHit(Rules, 1, c);
    } else if c == '\U{0130}' {
      LookupHit(Rules, 2, c);
    } else if c == '\U{011F}' {
      LookupHit(Rules, 3, c);
    } else if c == '\U{011E}' {
      LookupHit(Rules, 4, c);
    } else if c == '\U{00FC}' {
      LookupHit(Rules, 5, c);
    } else if c == '\U{00DC}' {
      LookupHit(Rules, 6, c);
    } else if c == '\U{015F}' {
      LookupHit(Rules, 7, c);
    } else if c == '\U{015E}' {
      LookupHit(Rules, 8, c);
    } else if c == '\U{00F6}' {
      LookupHit(Rules, 9, c);
    } else if c == '\U{00D6}' {
      LookupHit(Rules, 10, c);
    } else if c == '\U{00E7}' {
      LookupHit(Rules, 11, c);
    } else if c == '\U{00C7}' {
      LookupHit(Rules, 12, c);
    }
  }

  lemma {:induction false} LookupHit(rules: seq<(char, string)>, j: nat, c: char)
    requires j < |rules| && rules[j].0 == c
    requires forall k | 0 <= k < j :: rules[k].0 != c
    ensures Lookup(rules, c) == rules[j].1
    decreases j
  {
    if j > 0 {
      LookupHit(rules[1..], j - 1, c);
    }
  }

  lemma ApplyRulesChar(c: char)
    ensures ApplyRules([c], Rules) == Spell(c)
  {
    RulesWellFormed();
    ApplyRulesOneChar(c, Rules);
    LookupIsSpell(c);
  }

  /** The chain of replacements spells each character on its own: no
      replacement produces a character a later one rewrites. */
  lemma {:induction false} SafeTextSpellsEachChar(s: string)
    ensures ApplyRules(s, Rules) == SpellAll(s)
    decreases |s|
  {
    if s == [] {
      ApplyRulesEmpty(Rules);
    } else {
      assert s == [s[0]] + s[1..];
      ApplyRulesConcat([s[0]], s[1..], Rules);
      ApplyRulesChar(s[0]);
      SafeTextSpellsEachChar(s[1..]);
    }
  }

  lemma {:induction false} ApplyRulesEmpty(rules: seq<(char, string)>)
    ensures ApplyRules([], rules) == []
    decreases |rules|
  {
    if rules != [] {
      ApplyRulesEmpty(rules[1..]);
    }
  }

  lemma {:induction false} SpellAllPlain(s: string)
    requires forall i | 0 <= i < |s| :: !Special(s[i])
    ensures SpellAll(s) == s
    decreases |s|
  {
    if s != [] {
      SpellAllPlain(s[1..]);
    }
  }

  /** `safeText` leaves no '&' and no Turkish letter behind, grows the
      text by one character per '&', leaves text without those characters
      as it is, and applying it twice is applying it once. */
  lemma SafeTextProperties(text: Option<string>)
    ensures var r := SafeText(text);
      && (forall i | 0 <= i < |r| :: !Special(r[i]))
      && (Truthy(text) ==> |r| == |text.value| + CountChar(text.value, '&'))
      && (Truthy(text) && (forall i | 0 <= i < |text.value| :: !Special(text.value[i])) ==> r == text.value)
      && SafeText(Some(r)) == r
  {
    var r := SafeText(text);
    if Truthy(text) {
      SafeTextSpellsEachChar(text.value);
      assert r == SpellAll(text.value);
      if forall i | 0 <= i < |text.value| :: !Special(text.value[i]) {
        SpellAllPlain(text.value);
      }
    } else {
      assert r == "";
    }
    PlainTextIsFixed(r);
  }

  lemma PlainTextIsFixed(s: string)
    requires forall i | 0 <= i < |s| :: !Special(s[i])
    ensures SafeText(Some(s)) == s
  {
    if s != "" {
      assert SafeText(Some(s)) == ApplyRules(s, Rules);
      SafeTextSpellsEachChar(s);
      SpellAllPlain(s);
    }
  }

  // ---------------------------------------------------------------------
  // Table layout
  // ---------------------------------------------------------------------

  /** A column of `createTable`. A width of 0 counts as absent, as does a
      maximum length of 0. */
  datatype Column = Column(header: Option<string>, key: string, width: Option<real>, maxLength: Option<int>)

  /** `col.width || CONTENT_WIDTH / columns.length`. */
  function ColWidth(c: Column, n: nat): real
    requires n > 0
  {
    if c.width.Some? && c.width.value != 0.0 then c.width.value else ContentWidth as real / n as real
  }

  function ColWidths(cols: seq<Column>): (ws: seq<real>)
    ensures |ws| == |cols|
    ensures forall i | 0 <= i < |cols| :: ws[i] == ColWidth(cols[i], |cols|)
  {
    seq(|cols|, i requires 0 <= i < |cols| => ColWidth(cols[i], |cols|))
  }

  function Sum(ws: seq<real>): real {
    if ws == [] then 0.0 else Sum(ws[..|ws| - 1]) + ws[|ws| - 1]
  }

  /** The loop that places the columns side by side from the left margin. */
  method ColumnPositions(widths: seq<real>) returns (positions: seq<real>)
    ensures |positions| == |widths|
    ensures forall i | 0 <= i < |widths| :: positions[i] == MarginLeft as real + Sum(widths[..i])
  {
    positions := [];
    var currentX: real := MarginLeft as real;
    var i := 0;
    while i < |widths|
      invariant 0 <= i <= |widths| && |positions| == i
      invariant currentX == MarginLeft as real + Sum(widths[..i])
      invariant forall j | 0 <= j < i :: positions[j] == MarginLeft as real + Sum(widths[..j])
    {
      positions := positions + [currentX];
      assert widths[..i + 1][..i] == widths[..i];
      currentX := currentX + widths[i];
      i := i + 1;
    }
  }

  lemma {:induction false} SumConstant(ws: seq<real>, w: real)
    requires forall i | 0 <= i < |ws| :: ws[i] == w
    ensures Sum(ws) == |ws| as real * w
    decreases |ws|
  {
    if ws != [] {
      SumConstant(ws[..|ws| - 1], w);
    }
  }

  /** Without explicit widths the columns share the content width equally:
      column i starts i shares right of the margin, and the last one ends
      at the right margin. */
  lemma DefaultColumnsFillContent(cols: seq<Column>, i: nat)
    requires cols != [] && i <= |cols|
    requires forall k | 0 <= k < |cols| :: cols[k].width.None?
    ensures var ws := ColWidths(cols);
      && Sum(ws[..i]) == i as real * (ContentWidth as real / |cols| as real)
      && MarginLeft as real + Sum(ws) == (PageWidth - MarginRight) as real
  {
    var ws := ColWidths(cols);
    var w := ContentWidth as real / |cols| as real;
    SumConstant(ws[..i], w);
    SumConstant(ws, w);
    assert |cols| as real * w == ContentWidth as real;
  }

  /** A cell's value as the row object holds it. */
  datatype CellValue = CStr(s: string) | CNum(n: int) | CBool(b: bool) | CMissing

  /** `text.substring(0, maxLength - 3) + '...'` when a maximum is set and
      exceeded. */
  function Truncate(text: string, maxLength: Option<int>): (r: string)
    ensures maxLength.None? || maxLength.value == 0 || |text| <= maxLength.value ==> r == text
    ensures maxLength.Some? && maxLength.value != 0 && |text| > maxLength.value ==>
      && (maxLength.value >= 3 ==> |r| == maxLength.value && r == text[..maxLength.value - 3] + "...")
      && (maxLength.value < 3 ==> r == "...")
  {
    if maxLength.Some? && maxLength.value != 0 && |text| > maxLength.value then
      Take(text, maxLength.value - 3) + "..."
    else text
  }

  /** The text written in a cell: a falsy value (missing, empty, 0, false)
      shows '-', a string is sanitised, and the result is truncated. */
  function CellText(v: CellValue, maxLength: Option<int>): string {
    var text := match v
      case CStr(s) => if s == "" then "-" else SafeText(Some(s))
      case CNum(n) => if n == 0 then "-" else IntToString(n)
      case CBool(b) => if b then "true" else "-"
      case CMissing => "-";
    Truncate(text, maxLength)
  }

  lemma FalsyCellsShowDash(maxLength: Option<int>)
    ensures CellText(CMissing, maxLength) == CellText(CStr(""), maxLength) == CellText(CNum(0), maxLength)
         == CellText(CBool(false), maxLength) == Truncate("-", maxLength)
    ensures maxLength.None? || maxLength.value == 0 || maxLength.value >= 1 ==> CellText(CNum(0), maxLength) == "-"
  {
  }

  /** Rows overflow onto a new page once the cursor passes this line. */
  const MaxY := PageHeight - FooterHeight - MarginBottom

  /** Where the first row of a fresh page goes: below the page header and
      the repeated column headers. */
  const NewPageY := HeaderHeight + 10 + 4

  const RowHeight := 7

  /** The rows' vertical positions, the number of pages added, and the
      cursor after the last row. */
  datatype RowLayout = RowLayout(ys: seq<int>, breaks: nat, endY: int)

  /** Placing `n` rows with the cursor at `y`. */
  function PlaceRows(y: int, n: nat): (r: RowLayout)
    ensures |r.ys| == n
    decreases n
  {
    if n == 0 then RowLayout([], 0, y)
    else
      var y1 := if y > MaxY then NewPageY else y;
      var rest := PlaceRows(y1 + RowHeight, n - 1);
      RowLayout([y1] + rest.ys, (if y > MaxY then 1 else 0) + rest.breaks, rest.endY)
  }

  /** The row loop of `createTable`, after the column headers at `startY`. */
  method LayoutRows(startY: int, n: nat) returns (ys: seq<int>, breaks: nat, yPos: int)
    ensures RowLayout(ys, breaks, yPos) == PlaceRows(startY + 4, n)
  {
    ghost var all := PlaceRows(startY + 4, n);
    yPos := startY + 4;
    ys := [];
    breaks := 0;
    var left := n;
    while left > 0
      invariant ys + PlaceRows(yPos, left).ys == all.ys
      invariant breaks + PlaceRows(yPos, left).breaks == all.breaks
      invariant PlaceRows(yPos, left).endY == all.endY
    {
      ghost var y, done, broke := yPos, ys, breaks;
      if yPos > MaxY {
        breaks := breaks + 1;
        yPos := NewPageY;
      }
      RowStep(done, broke, y, left, all, yPos, breaks);
      ys := ys + [yPos];
      yPos := yPos + RowHeight;
      left := left - 1;
    }
  }

  /** One turn of the row loop keeps what is placed plus what remains
      equal to the whole layout: the row goes at `y1`, the cursor or the
      top of a new page. */
  lemma RowStep(done: seq<int>, broke: nat, y: int, m: nat, all: RowLayout, y1: int, broke1: nat)
    requires m > 0
    requires done + PlaceRows(y, m).ys == all.ys
    requires broke + PlaceRows(y, m).breaks == all.breaks
    requires PlaceRows(y, m).endY == all.endY
    requires y1 == if y > MaxY then NewPageY else y
    requires broke1 == if y > MaxY then broke + 1 else broke
    ensures (done + [y1]) + PlaceRows(y1 + RowHeight, m - 1).ys == all.ys
    ensures broke1 + PlaceRows(y1 + RowHeight, m - 1).breaks == all.breaks
    ensures PlaceRows(y1 + RowHeight, m - 1).endY == all.endY
  {
    var rest := PlaceRows(y1 + RowHeight, m - 1);
    assert PlaceRows(y, m).ys == [y1] + rest.ys;
    assert (done + [y1]) + rest.ys == done + ([y1] + rest.ys);
  }

  /** Every row is drawn above the overflow line, on a page of its own
      once the cursor would pass it. */
  lemma {:induction false} RowsStayAboveFooter(y: int, n: nat)
    ensures forall k | 0 <= k < n :: PlaceRows(y, n).ys[k] <= MaxY
    decreases n
  {
    if n > 0 {
      var y1 := if y > MaxY then NewPageY else y;
      RowsStayAboveFooter(y1 + RowHeight, n - 1);
      var r := PlaceRows(y, n);
      forall k | 0 <= k < n ensures r.ys[k] <= MaxY {
        if k > 0 {
          assert r.ys[k] == PlaceRows(y1 + RowHeight, n - 1).ys[k - 1];
        }
      }
    }
  }

  /** Rows that fit stay on the page, seven millimetres apart. */
  lemma {:induction false} RowsThatFit(y: int, n: nat)
    requires n > 0 ==> y + RowHeight * (n - 1) <= MaxY
    ensures var r := PlaceRows(y, n);
      && r.breaks == 0 && r.endY == y + RowHeight * n
      && forall k | 0 <= k < n :: r.ys[k] == y + RowHeight * k
    decreases n
  {
    if n > 0 {
      RowsThatFit(y + RowHeight, n - 1);
      var r := PlaceRows(y, n);
      forall k | 0 <= k < n ensures r.ys[k] == y + RowHeight * k {
        if k > 0 {
          assert r.ys[k] == PlaceRows(y + RowHeight, n - 1).ys[k - 1];
        }
      }
    }
  }

  /** One more row is placed where the cursor stands, or on a new page. */
  lemma {:induction false} PlaceRowsSnoc(y: int, n: nat)
    ensures var r := PlaceRows(y, n);
      var r1 := PlaceRows(y, n + 1);
      var yLast := if r.endY > MaxY then NewPageY else r.endY;
      && r1.ys == r.ys + [yLast]
      && r1.breaks == r.breaks + (if r.endY > MaxY then 1 else 0)
      && r1.endY == yLast + RowHeight
    decreases n
  {
    if n > 0 {
      var y1 := if y > MaxY then NewPageY else y;
      PlaceRowsSnoc(y1 + RowHeight, n - 1);
    }
  }

  /** A fresh page holds thirty rows; the thirty-first opens another page. */
  lemma ThirtyRowsPerPage()
    ensures PlaceRows(NewPageY, 30).breaks == 0
    ensures PlaceRows(NewPageY, 31).breaks == 1
  {
    RowsThatFit(NewPageY, 30);
    PlaceRowsSnoc(NewPageY, 30);
  }

  // ---------------------------------------------------------------------
  // Footers
  // ---------------------------------------------------------------------

  /** The note at the bottom left of every page. It is written in plain
      ASCII letters, so `safeText` leaves it as it is (`SafeTextProperties`:
      a text without a rewritten character is unchanged). */
  const AutoNote := "Bu dokuman sistem tarafindan otomatik uretilmistir."

  /** What `createFooter` writes on a page. */
  function FooterTexts(reportName: Option<string>, total: nat, page: nat): (r: seq<string>)
    ensures |r| == if Truthy(reportName) then 3 else 2
    ensures r[1] == "Sayfa " + NatToString(page) + " / " + NatToString(total)
  {
    [AutoNote,
     "Sayfa " + NatToString(page) + " / " + NatToString(total)]
    + (if Truthy(reportName) then [SafeText(reportName)] else [])
  }

  /** A document as the texts written on each of its pages. */
  class PdfDoc {
    var pages: seq<seq<string>>

    constructor()
      ensures pages == [[]]
    {
      pages := [[]];
    }

    /** `savePdf`: a footer on every page, numbered from 1, then saving
        (which is outside the model). */
    method SavePdf(reportName: Option<string>)
      modifies this
      ensures |pages| == |old(pages)|
      ensures forall k | 0 <= k < |pages| :: pages[k] == old(pages)[k] + FooterTexts(reportName, |pages|, k + 1)
    {
      var totalPages := |pages|;
      var i := 1;
      while i <= totalPages
        invariant 1 <= i <= totalPages + 1 && |pages| == totalPages
        invariant forall k | 0 <= k < i - 1 :: pages[k] == old(pages)[k] + FooterTexts(reportName, totalPages, k + 1)
        invariant forall k | i - 1 <= k < totalPages :: pages[k] == old(pages)[k]
      {
        pages := pages[i - 1 := pages[i - 1] + FooterTexts(reportName, totalPages, i)];
        i := i + 1;
      }
    }
  }
}
