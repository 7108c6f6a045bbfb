/** The landscape tour voucher: a company block on the left of a
    perforation line, the reservation's fields on the right, a footer, and
    the file name the voucher is saved under. Every text taken from the
    data is reduced to ASCII first, because the built-in PDF font has no
    other glyphs. */
module VoucherPdf {
  import opened Common

  // ---------------------------------------------------------------------
  // The ASCII filter
  // ---------------------------------------------------------------------

  predicate IsAscii(c: char) {
    c as int <= 0x7F
  }

  predicate AllAscii(s: string) {
    forall i | 0 <= i < |s| :: IsAscii(s[i])
  }

  /** `safeText`: a falsy value becomes "", anything else loses every
      character above 0x7F. */
  function SafeText(text: Option<string>): (r: string)
    ensures !Truthy(text) ==> r == ""
    ensures Truthy(text) ==> r == Filter(text.value, IsAscii)
    ensures AllAscii(r)
  {
    if !Truthy(text) then "" else Filter(text.value, IsAscii)
  }

  /** Filtering again removes nothing more. */
  lemma {:induction false} FilterTwice(s: string)
    ensures Filter(Filter(s, IsAscii), IsAscii) == Filter(s, IsAscii)
  {
    if s != [] {
      FilterTwice(s[1..]);
      if IsAscii(s[0]) {
        assert Filter(s, IsAscii) == [s[0]] + Filter(s[1..], IsAscii);
        assert Filter(s, IsAscii)[1..] == Filter(s[1..], IsAscii);
      }
    }
  }

  /** A text that is ASCII already is kept as it is. */
  lemma {:induction false} FilterAscii(s: string)
    requires AllAscii(s)
    ensures Filter(s, IsAscii) == s
  {
    if s != [] {
      assert AllAscii(s[1..]) by {
        forall i | 0 <= i < |s[1..]| ensures IsAscii(s[1..][i]) {
          assert s[1..][i] == s[i + 1];
        }
      }
      FilterAscii(s[1..]);
    }
  }

  /** What `safeText` promises: its result is ASCII, keeps the input's
      characters in their order, keeps exactly the ASCII ones, leaves an
      ASCII text as it is, and a second application changes nothing. */
  lemma SafeTextProperties(text: Option<string>)
    ensures var r := SafeText(text);
      && AllAscii(r)
      && (Truthy(text) ==> Subseq(r, text.value) && forall c :: c in r <==> c in text.value && IsAscii(c))
      && (Truthy(text) && AllAscii(text.value) ==> r == text.value)
      && SafeText(Some(r)) == r
  {
    var r := SafeText(text);
    if Truthy(text) {
      FilterTwice(text.value);
      if AllAscii(text.value) {
        FilterAscii(text.value);
      }
    }
  }

  // ---------------------------------------------------------------------
  // Inputs
  // ---------------------------------------------------------------------

  /** A calendar day as `format` prints it. */
  datatype Day = Day(year: nat, month: nat, day: nat)

  /** The company fields the voucher prints. */
  datatype CompanyInfo = CompanyInfo(companyName: Option<string>, phone: Option<string>, address: Option<string>,
                                     email: Option<string>, website: Option<string>)

  /** The reservation fields the voucher prints. The price is held in
      hundredths, the precision the voucher prints it with. */
  datatype Reservation = Reservation(id: string, voucherCode: Option<string>, createdAt: Option<Day>, date: Day,
                                     time: Option<string>, tourTypeName: Option<string>, atvCount: Option<int>,
                                     customerName: Option<string>, cariName: Option<string>,
                                     priceCents: Option<int>, currency: Option<string>)

  /** `x || fallback` on a string field. */
  function Or(x: Option<string>, fallback: string): (r: string)
    ensures Truthy(x) ==> r == x.value
    ensures !Truthy(x) ==> r == fallback
  {
    if Truthy(x) then x.value else fallback
  }

  const DefaultCompanyName := "Firma Ad\U{0131}"

  /** The company used when none is given. */
  const DefaultCompany := CompanyInfo(Some(DefaultCompanyName), Some(""), Some(""), Some(""), Some(""))

  function CompanyOrDefault(company: Option<CompanyInfo>): (c: CompanyInfo)
    ensures company.Some? ==> c == company.value
    ensures company.None? ==> Or(c.companyName, "?") == DefaultCompanyName
    ensures company.None? ==> !Truthy(c.phone) && !Truthy(c.address) && !Truthy(c.email) && !Truthy(c.website)
  {
    if company.Some? then company.value else DefaultCompany
  }

  const DefaultVoucherCode := "VCHR-XXXX"
  const NotProvided := "Belirtilmedi / Not Provided"

  // ---------------------------------------------------------------------
  // Formatting
  // ---------------------------------------------------------------------

  /** `format(date, 'dd.MM.yyyy')`. */
  function DayText(d: Day): string {
    PadNat(d.day, 2) + "." + PadNat(d.month, 2) + "." + PadNat(d.year, 4)
  }

  /** `format(date, 'yyyyMMdd')`. */
  function DayStamp(d: Day): string {
    PadNat(d.year, 4) + PadNat(d.month, 2) + PadNat(d.day, 2)
  }

  lemma PadNatExact(n: nat, width: nat)
    requires |NatToString(n)| <= width
    ensures |PadNat(n, width)| == width
    decreases width
  {
    if |NatToString(n)| < width {
      PadNatExact(n, width - 1);
    }
  }

  function Pow10(k: nat): nat {
    if k == 0 then 1 else 10 * Pow10(k - 1)
  }

  /** A number below 10^k has at most k digits. */
  lemma {:induction false} NatToStringBound(n: nat, k: nat)
    requires 1 <= k && n < Pow10(k)
    ensures |NatToString(n)| <= k
    decreases k
  {
    if n >= 10 {
      assert k >= 2;
      assert n / 10 < Pow10(k - 1);
      NatToStringBound(n / 10, k - 1);
    }
  }

  /** A real calendar day is stamped with exactly eight digits. */
  lemma DayStampDigits(d: Day)
    requires d.year < 10000 && d.month < 100 && d.day < 100
    ensures |DayStamp(d)| == 8 && AllDigits(DayStamp(d))
  {
    assert Pow10(4) == 10000 && Pow10(2) == 100;
    NatToStringBound(d.year, 4);
    NatToStringBound(d.month, 2);
    NatToStringBound(d.day, 2);
    PadNatExact(d.year, 4);
    PadNatExact(d.month, 2);
    PadNatExact(d.day, 2);
    var s := DayStamp(d);
    forall i | 0 <= i < |s| ensures IsDigit(s[i]) {
      if i < 4 {
        assert s[i] == PadNat(d.year, 4)[i];
      } else if i < 6 {
        assert s[i] == PadNat(d.month, 2)[i - 4];
      } else {
        assert s[i] == PadNat(d.day, 2)[i - 6];
      }
    }
  }

  /** `(price || 0).toFixed(2)` for a price held in hundredths. */
  function PriceText(cents: Option<int>): (r: string)
    ensures cents.None? || cents == Some(0) ==> r == "0.00"
  {
    CentsText(cents.GetOr(0))
  }

  /** For every price the text is an optional minus sign, the whole units, a
      point and exactly two digits of hundredths, and it reads back to the
      price. */
  lemma PriceTextReadsBack(cents: Option<int>)
    ensures DecimalText(PriceText(cents), cents.GetOr(0))
  {
    CentsTextReadsBack(cents.GetOr(0));
  }

  /** `voucher-<code>-<yyyyMMdd>.pdf`: the voucher code as stored (it is
      not reduced to ASCII), or else the first eight characters of the
      reservation id, and the day the voucher is generated. */
  function Filename(r: Reservation, today: Day): string {
    "voucher-" + (if Truthy(r.voucherCode) then r.voucherCode.value else Take(r.id, 8)) + "-" + DayStamp(today) + ".pdf"
  }

  /** The name always starts with "voucher-", ends with the eight-digit
      day and ".pdf", and carries the code or the id prefix in between. */
  lemma FilenameShape(r: Reservation, today: Day)
    requires today.year < 10000 && today.month < 100 && today.day < 100
    ensures var name := Filename(r, today);
      && "voucher-" <= name
      && |name| >= 21
      && name[|name| - 13..] == "-" + DayStamp(today) + ".pdf"
      && AllDigits(name[|name| - 12..|name| - 4])
      && (!Truthy(r.voucherCode) ==> name[8..|name| - 13] == Take(r.id, 8) && |name| <= 29)
      && (Truthy(r.voucherCode) ==> name[8..|name| - 13] == r.voucherCode.value)
  {
    DayStampDigits(today);
    var name := Filename(r, today);
    var code := if Truthy(r.voucherCode) then r.voucherCode.value else Take(r.id, 8);
    var tail := "-" + DayStamp(today) + ".pdf";
    assert name == "voucher-" + code + tail;
    assert name[|name| - 13..] == tail;
    assert name[8..|name| - 13] == code;
    assert name[|name| - 12..|name| - 4] == DayStamp(today);
  }

  // ---------------------------------------------------------------------
  // Layout
  // ---------------------------------------------------------------------

  /** Landscape A4 in points, as the PDF library sizes it. */
  const PageWidth: real := 841.89
  const PageHeight: real := 595.28
  const Margin: real := 30.0
  const ContentWidth: real := PageWidth - Margin * 2.0
  const ContentHeight: real := PageHeight - Margin * 2.0
  /** The perforation line: 40% of the content width from the left margin. */
  const PerforationX: real := Margin + ContentWidth * 0.4
  const LeftBlockWidth: real := PerforationX - Margin - 20.0
  const RightBlockX: real := PerforationX + 20.0
  const RightBlockWidth: real := PageWidth - RightBlockX - Margin
  const FieldSpacing: real := 25.0

  /** Text lines written with their first baseline at (x, y). */
  datatype Placed = Placed(lines: seq<string>, x: real, y: real)

  /** Every block starts below the previous one by at least `pitch` per
      line of the previous block: no two blocks share a line. */
  predicate Stacked(ps: seq<Placed>, pitch: real) {
    forall i | 0 <= i < |ps| - 1 :: ps[i + 1].y >= ps[i].y + pitch * |ps[i].lines| as real
  }

  /** Adding a block far enough below the last one keeps the blocks
      stacked. */
  lemma StackedSnoc(ps: seq<Placed>, p: Placed, pitch: real)
    requires Stacked(ps, pitch)
    requires ps != [] ==> p.y >= ps[|ps| - 1].y + pitch * |ps[|ps| - 1].lines| as real
    ensures Stacked(ps + [p], pitch)
  {
    var qs := ps + [p];
    forall i | 0 <= i < |qs| - 1 ensures qs[i + 1].y >= qs[i].y + pitch * |qs[i].lines| as real {
      if i < |ps| - 1 {
        assert qs[i] == ps[i] && qs[i + 1] == ps[i + 1];
      }
    }
  }

  /** The wrapped company name. */
  function NameText(c: CompanyInfo, wrap: (string, real) -> seq<string>): seq<string> {
    wrap(SafeText(Some(Or(c.companyName, DefaultCompanyName))), LeftBlockWidth - 20.0)
  }

  /** A contact field's block when the field is present, with its label;
      nothing when it is absent or empty. */
  function ContactText(caption: string, field: Option<string>): seq<seq<string>> {
    if Truthy(field) then [[caption + SafeText(field)]] else []
  }

  function AddressText(c: CompanyInfo, wrap: (string, real) -> seq<string>): seq<seq<string>> {
    if Truthy(c.address) then [wrap("Adres: " + SafeText(c.address), LeftBlockWidth - 20.0)] else []
  }

  /** The company texts in order: the wrapped name, then each contact
      field that is present, with its label. */
  function CompanyTexts(c: CompanyInfo, wrap: (string, real) -> seq<string>): (r: seq<seq<string>>)
    ensures |r| >= 1
  {
    [NameText(c, wrap)] + ContactText("Tel: ", c.phone) + AddressText(c, wrap)
    + ContactText("E-posta: ", c.email) + ContactText("Web: ", c.website)
  }

  /** The lines of each block, in order. */
  predicate HoldsLines(ps: seq<Placed>, texts: seq<seq<string>>) {
    |ps| == |texts| && forall i | 0 <= i < |ps| :: ps[i].lines == texts[i]
  }

  /** Blocks holding `texts`, all at `x`, stacked `pitch` per line. */
  predicate Column(ps: seq<Placed>, texts: seq<seq<string>>, x: real, pitch: real) {
    && HoldsLines(ps, texts)
    && (forall i | 0 <= i < |ps| :: ps[i].x == x)
    && Stacked(ps, pitch)
  }

  /** The next line position lies below the last block of the column. */
  predicate Below(ps: seq<Placed>, y: real, pitch: real) {
    ps != [] ==> y >= ps[|ps| - 1].y + pitch * |ps[|ps| - 1].lines| as real
  }

  lemma ColumnSnoc(ps: seq<Placed>, texts: seq<seq<string>>, x: real, pitch: real, lines: seq<string>, y: real)
    requires Column(ps, texts, x, pitch) && Below(ps, y, pitch)
    ensures Column(ps + [Placed(lines, x, y)], texts + [lines], x, pitch)
  {
    StackedSnoc(ps, Placed(lines, x, y), pitch);
    var qs := ps + [Placed(lines, x, y)];
    assert forall i | 0 <= i < |ps| :: qs[i] == ps[i];
  }

  /** Writes one block at `yPos` below the column and moves `yPos` on
      by `step`. */
  method Put(drawn: seq<Placed>, ghost texts: seq<seq<string>>, x: real, yPos: real, lines: seq<string>, step: real)
    returns (drawn': seq<Placed>, ghost texts': seq<seq<string>>, yPos': real)
    requires Column(drawn, texts, x, 18.0) && Below(drawn, yPos, 18.0)
    requires step >= 18.0 * |lines| as real
    ensures Column(drawn', texts', x, 18.0) && Below(drawn', yPos', 18.0)
    ensures texts' == texts + [lines] && yPos' == yPos + step
    ensures drawn' == drawn + [Placed(lines, x, yPos)]
  {
    ColumnSnoc(drawn, texts, x, 18.0, lines, yPos);
    drawn', texts', yPos' := drawn + [Placed(lines, x, yPos)], texts + [lines], yPos + step;
  }

  /** The left block, written top-down from 60pt below the margin; the
      text wrapper stands for the font-dependent line splitting. */
  method CompanyBlock(c: CompanyInfo, wrap: (string, real) -> seq<string>) returns (drawn: seq<Placed>)
    ensures Column(drawn, CompanyTexts(c, wrap), Margin + 10.0, 18.0)
    ensures drawn[0].y == Margin + 60.0
  {
    var x := Margin + 10.0;
    var yPos := Margin + 40.0;
    yPos := yPos + 20.0;
    var nameLines := wrap(SafeText(Some(Or(c.companyName, DefaultCompanyName))), LeftBlockWidth - 20.0);
    ghost var texts;
    drawn, texts, yPos := Put([], [], x, yPos, nameLines, |nameLines| as real * 20.0 + 15.0);
    assert texts == [NameText(c, wrap)];
    ghost var name := drawn[0];
    drawn, texts, yPos := PutContact(drawn, texts, x, yPos, "Tel: ", c.phone);
    drawn, texts, yPos := PutAddress(drawn, texts, x, yPos, c, wrap);
    drawn, texts, yPos := PutContact(drawn, texts, x, yPos, "E-posta: ", c.email);
    drawn, texts, yPos := PutContact(drawn, texts, x, yPos, "Web: ", c.website);
    assert texts == CompanyTexts(c, wrap);
    assert drawn[0] == name;
  }

  /** A labelled contact line, written only when the field is present. */
  method PutContact(drawn: seq<Placed>, ghost texts: seq<seq<string>>, x: real, yPos: real, caption: string, field: Option<string>)
    returns (drawn': seq<Placed>, ghost texts': seq<seq<string>>, yPos': real)
    requires Column(drawn, texts, x, 18.0) && Below(drawn, yPos, 18.0) && drawn != []
    ensures Column(drawn', texts', x, 18.0) && Below(drawn', yPos', 18.0)
    ensures texts' == texts + ContactText(caption, field)
    ensures drawn' != [] && drawn'[0] == drawn[0]
  {
    drawn', texts', yPos' := drawn, texts, yPos;
    if Truthy(field) {
      drawn', texts', yPos' := Put(drawn, texts, x, yPos, [caption + SafeText(field)], 18.0);
    }
  }

  /** The wrapped address, written only when the company has one. */
  method PutAddress(drawn: seq<Placed>, ghost texts: seq<seq<string>>, x: real, yPos: real,
                    c: CompanyInfo, wrap: (string, real) -> seq<string>)
    returns (drawn': seq<Placed>, ghost texts': seq<seq<string>>, yPos': real)
    requires Column(drawn, texts, x, 18.0) && Below(drawn, yPos, 18.0) && drawn != []
    ensures Column(drawn', texts', x, 18.0) && Below(drawn', yPos', 18.0)
    ensures texts' == texts + AddressText(c, wrap)
    ensures drawn' != [] && drawn'[0] == drawn[0]
  {
    drawn', texts', yPos' := drawn, texts, yPos;
    if Truthy(c.address) {
      var addressLines := wrap("Adres: " + SafeText(c.address), LeftBlockWidth - 20.0);
      drawn', texts', yPos' := Put(drawn, texts, x, yPos, addressLines, |addressLines| as real * 18.0);
    }
  }

  /** The voucher number and issue date at the bottom of the left block. */
  function VoucherNumberBlock(r: Reservation, today: Day): (ps: seq<Placed>)
    ensures |ps| == 3 && Stacked(ps, 16.0)
    ensures ps[1].lines == [SafeText(Some(Or(r.voucherCode, DefaultVoucherCode)))]
    ensures ps[2].y == Margin + ContentHeight - 24.0
  {
    var y := Margin + ContentHeight - 60.0;
    var ps := [Placed(["Voucher No / Voucher Number:"], Margin + 10.0, y),
               Placed([SafeText(Some(Or(r.voucherCode, DefaultVoucherCode)))], Margin + 10.0, y + 16.0),
               Placed(["Olusturulma Tarihi / Issued Date: " + DayText(r.createdAt.GetOr(today))], Margin + 10.0, y + 36.0)];
    assert |ps[0].lines| == 1 && |ps[1].lines| == 1;
    ps
  }

  /** The values of the right block's nine rows, in order. */
  function DetailValues(r: Reservation, wrap: (string, real) -> seq<string>): (vs: seq<seq<string>>)
    ensures |vs| == 9
  {
    [[DayText(r.date)],
     [SafeText(Some(Or(r.time, "-")))],
     [SafeText(Some(Or(r.time, "-")))],
     [SafeText(Some(Or(r.tourTypeName, NotProvided)))],
     [IntToString(r.atvCount.GetOr(0)) + " ATV"],
     wrap(SafeText(Some(Or(r.customerName, NotProvided))), RightBlockWidth - 140.0),
     wrap(SafeText(Some(Or(r.cariName, NotProvided))), RightBlockWidth - 140.0),
     [PriceText(r.priceCents)],
     [Or(r.currency, "EUR")]]
  }

  /** The step after a row: the field spacing, or 18pt per line when the
      value wrapped onto more than one line. */
  function RowStep(lines: seq<string>): (step: real)
    ensures step >= FieldSpacing && step >= 18.0 * |lines| as real
  {
    if |lines| > 1 then |lines| as real * 18.0 else FieldSpacing
  }

  /** The right block's value column, written top-down 30pt below the
      heading, one row per field. */
  method DetailRows(values: seq<seq<string>>) returns (drawn: seq<Placed>)
    requires values != []
    ensures HoldsLines(drawn, values)
    ensures drawn[0].y == Margin + 70.0
    ensures forall i | 0 <= i < |drawn| :: drawn[i].x == RightBlockX + 120.0
    ensures Stacked(drawn, 18.0)
    ensures forall i | 0 <= i < |drawn| - 1 :: drawn[i + 1].y >= drawn[i].y + FieldSpacing
  {
    var yPos := Margin + 40.0;
    yPos := yPos + 30.0;
    drawn := [];
    var i := 0;
    while i < |values|
      invariant 0 <= i <= |values| && |drawn| == i
      invariant forall j | 0 <= j < i :: drawn[j].lines == values[j] && drawn[j].x == RightBlockX + 120.0
      invariant i > 0 ==> drawn[0].y == Margin + 70.0
      invariant i == 0 ==> yPos == Margin + 70.0
      invariant i > 0 ==> yPos == drawn[i - 1].y + RowStep(values[i - 1])
      invariant forall j | 0 <= j < i - 1 :: drawn[j + 1].y == drawn[j].y + RowStep(values[j])
    {
      drawn := drawn + [Placed(values[i], RightBlockX + 120.0, yPos)];
      yPos := yPos + RowStep(values[i]);
      i := i + 1;
    }
  }

  /** The footer note. */
  const FooterText := "Bu voucher sistem tarafindan otomatik olusturulmustur. / This voucher has been automatically generated by the system."
  const FooterY: real := Margin + ContentHeight - 20.0

  /** The footer's wrapped lines, centred, 10pt apart, the last one
      10pt above the footer line. */
  method FooterBlock(lines: seq<string>) returns (drawn: seq<Placed>)
    ensures |drawn| == |lines|
    ensures forall i | 0 <= i < |drawn| :: drawn[i].lines == [lines[i]] && drawn[i].x == PageWidth / 2.0
    ensures forall i | 0 <= i < |drawn| :: drawn[i].y == FooterY - 10.0 * (|lines| - i) as real
    ensures Stacked(drawn, 10.0)
    ensures forall i | 0 <= i < |drawn| :: drawn[i].y <= FooterY - 10.0
  {
    var footerStartY := FooterY - |lines| as real * 10.0;
    drawn := [];
    var index := 0;
    while index < |lines|
      invariant 0 <= index <= |lines| && |drawn| == index
      invariant forall i | 0 <= i < index :: drawn[i] == Placed([lines[i]], PageWidth / 2.0, footerStartY + i as real * 10.0)
    {
      drawn := drawn + [Placed([lines[index]], PageWidth / 2.0, footerStartY + index as real * 10.0)];
      index := index + 1;
    }
  }

  /** Everything the voucher writes, block by block, and its file name. */
  datatype Voucher = Voucher(company: seq<Placed>, number: seq<Placed>, details: seq<Placed>, footer: seq<Placed>, filename: string)

  datatype Outcome = Generated(voucher: Voucher) | Failed(message: string)

  /** `generateVoucherPdf`: refuses a missing reservation, falls back to
      the default company, and lays the voucher out. */
  method GenerateVoucher(reservation: Option<Reservation>, company: Option<CompanyInfo>,
                         wrap: (string, real) -> seq<string>, today: Day) returns (out: Outcome)
    ensures reservation.None? <==> out == Failed("Rezervasyon bilgisi gerekli")
    ensures out.Generated? ==> reservation.Some?
    ensures out.Generated? ==> var v := out.voucher; var r := reservation.value;
      && Column(v.company, CompanyTexts(CompanyOrDefault(company), wrap), Margin + 10.0, 18.0)
      && v.number == VoucherNumberBlock(r, today)
      && HoldsLines(v.details, DetailValues(r, wrap))
      && Stacked(v.details, 18.0)
      && |v.footer| == |wrap(FooterText, ContentWidth - 40.0)|
      && (forall i | 0 <= i < |v.footer| :: v.footer[i].y <= FooterY - 10.0)
      && v.filename == Filename(r, today)
  {
    if reservation.None? {
      return Failed("Rezervasyon bilgisi gerekli");
    }
    var r := reservation.value;
    var c := CompanyOrDefault(company);
    var left := CompanyBlock(c, wrap);
    var number := VoucherNumberBlock(r, today);
    var details := DetailRows(DetailValues(r, wrap));
    var footer := FooterBlock(wrap(FooterText, ContentWidth - 40.0));
    out := Generated(Voucher(left, number, details, footer, Filename(r, today)));
  }

  /** The default name loses its dotless i to the ASCII filter. */
  lemma DefaultNamePrinted()
    ensures SafeText(Some(DefaultCompanyName)) == "Firma Ad"
  {
    var kept := "Firma Ad";
    assert DefaultCompanyName == kept + ['\U{0131}'];
    assert AllAscii(kept);
    FilterAscii(kept);
    FilterSnoc(kept, '\U{0131}', IsAscii);
  }

  /** With no company given, the left block holds only the default name
      as printed: the empty default contact fields are all skipped. */
  lemma DefaultCompanyShowsOnlyName(wrap: (string, real) -> seq<string>)
    ensures CompanyTexts(CompanyOrDefault(None), wrap) == [wrap("Firma Ad", LeftBlockWidth - 20.0)]
  {
    var c := CompanyOrDefault(None);
    NoContactsShowsOnlyName(c, wrap);
    DefaultNamePrinted();
  }

  /** A company with no contact field shows only its wrapped name. */
  lemma NoContactsShowsOnlyName(c: CompanyInfo, wrap: (string, real) -> seq<string>)
    requires !Truthy(c.phone) && !Truthy(c.address) && !Truthy(c.email) && !Truthy(c.website)
    ensures CompanyTexts(c, wrap) == [NameText(c, wrap)]
  {
    assert ContactText("Tel: ", c.phone) == [] && AddressText(c, wrap) == [];
    assert ContactText("E-posta: ", c.email) == [] && ContactText("Web: ", c.website) == [];
  }

}
