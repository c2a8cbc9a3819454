/** The store settings screen: the record it edits, the merge of saved
    settings over the defaults on load, the thermal-printer values that feed
    the print style sheet, and which optional blocks the test receipt
    carries. The CSS and HTML text themselves are left out. */
module StoreSettings {
  import opened Options
  import B = Billing

  datatype Thermal = Thermal(paperWidth: string, fontSize: string, autoCut: bool, compactMode: bool)

  datatype PrintOptions = PrintOptions(includeLogo: bool, includeQR: bool, autoPrint: bool)

  datatype Settings = Settings(
    name: string,
    address: string,
    phone: string,
    email: string,
    taxId: string,
    website: string,
    logo: string,
    paymentQR: string,
    printerType: string,
    thermal: Thermal,
    printing: PrintOptions)

  /** The stored settings object: any top-level field may be missing. */
  datatype Saved = Saved(
    name: Option<string>,
    address: Option<string>,
    phone: Option<string>,
    email: Option<string>,
    taxId: Option<string>,
    website: Option<string>,
    logo: Option<string>,
    paymentQR: Option<string>,
    printerType: Option<string>,
    thermal: Option<Thermal>,
    printing: Option<PrintOptions>)

  /** The form's initial state. */
  const Defaults: Settings := Settings(
    B.DefaultStoreName, "", "", "", "", "", "", "", "normal",
    Thermal("80mm", "medium", false, false),
    PrintOptions(false, false, false))

  /** The load effect: with nothing stored the defaults stand; otherwise the
      stored fields are spread over the defaults (the nested thermal and
      print objects replace the defaults whole), and a missing or empty name
      falls back to the default store name. */
  function Load(saved: Option<Saved>): (r: Settings)
    ensures saved.None? ==> r == Defaults
    ensures saved.Some? ==>
              var s := saved.value;
              (r.name == if s.name.Some? && s.name.value != "" then s.name.value else B.DefaultStoreName)
              && r.address == s.address.GetOr(Defaults.address)
              && r.phone == s.phone.GetOr(Defaults.phone)
              && r.email == s.email.GetOr(Defaults.email)
              && r.taxId == s.taxId.GetOr(Defaults.taxId)
              && r.website == s.website.GetOr(Defaults.website)
              && r.logo == s.logo.GetOr(Defaults.logo)
              && r.paymentQR == s.paymentQR.GetOr(Defaults.paymentQR)
              && r.printerType == s.printerType.GetOr(Defaults.printerType)
              && r.thermal == s.thermal.GetOr(Defaults.thermal)
              && r.printing == s.printing.GetOr(Defaults.printing)
    ensures r.name != ""
  {
    match saved
    case None => Defaults
    case Some(s) =>
      Settings(
        if s.name.Some? && s.name.value != "" then s.name.value else B.DefaultStoreName,
        s.address.GetOr(Defaults.address), s.phone.GetOr(Defaults.phone), s.email.GetOr(Defaults.email),
        s.taxId.GetOr(Defaults.taxId), s.website.GetOr(Defaults.website), s.logo.GetOr(Defaults.logo),
        s.paymentQR.GetOr(Defaults.paymentQR), s.printerType.GetOr(Defaults.printerType),
        s.thermal.GetOr(Defaults.thermal), s.printing.GetOr(Defaults.printing))
  }

  /** `handleSave` stores every field. */
  function Save(s: Settings): Saved
  {
    Saved(Some(s.name), Some(s.address), Some(s.phone), Some(s.email), Some(s.taxId), Some(s.website),
          Some(s.logo), Some(s.paymentQR), Some(s.printerType), Some(s.thermal), Some(s.printing))
  }

  /** Saving and loading again restores the form exactly, except that an
      emptied store name comes back as the default one. */
  lemma {:induction false} SaveThenLoad(s: Settings)
    ensures s.name != "" ==> Load(Some(Save(s))) == s
    ensures s.name == "" ==> Load(Some(Save(s))) == s.(name := B.DefaultStoreName)
  {
  }

  /** The values `generateThermalPrintCSS` writes, in px and mm (the line
      height as a plain factor). */
  datatype Layout = Layout(
    fontPx: int,
    lineHeight: real,
    bodyWidthMm: int,
    headerSpacingMm: int,
    titlePx: int,
    smallPx: int,
    sectionPaddingMm: real)

  function FontPx(size: string): int
  {
    if size == "small" then 10 else if size == "large" then 14 else 12
  }

  function BodyWidthMm(paperWidth: string): int
  {
    if paperWidth == "80mm" then 78 else if paperWidth == "58mm" then 56 else 108
  }

  function ThermalLayout(t: Thermal): (r: Layout)
    ensures r.fontPx == FontPx(t.fontSize) && r.bodyWidthMm == BodyWidthMm(t.paperWidth)
  {
    Layout(
      FontPx(t.fontSize),
      if t.compactMode then 1.1 else 1.3,
      BodyWidthMm(t.paperWidth),
      if t.compactMode then 1 else 2,
      if t.fontSize == "large" then 16 else 14,
      if t.fontSize == "small" then 8 else 10,
      if t.compactMode then 0.5 else 1.0)
  }

  /** Small, medium (anything else) and large give strictly growing text;
      the heading is never smaller and the header lines never larger than
      the body text. */
  lemma {:induction false} FontSizesOrdered(t: Thermal)
    ensures FontPx("small") < FontPx("medium") < FontPx("large")
    ensures t.fontSize != "small" && t.fontSize != "large" ==> FontPx(t.fontSize) == 12
    ensures ThermalLayout(t).smallPx <= ThermalLayout(t).fontPx <= ThermalLayout(t).titlePx
  {
  }

  /** For the two receipt widths the body is the paper less 2 mm; any other
      value selects the wide 108 mm body. */
  lemma {:induction false} BodyFitsPaper(t: Thermal)
    ensures t.paperWidth == "80mm" ==> ThermalLayout(t).bodyWidthMm == 80 - 2
    ensures t.paperWidth == "58mm" ==> ThermalLayout(t).bodyWidthMm == 58 - 2
    ensures t.paperWidth != "80mm" && t.paperWidth != "58mm" ==> ThermalLayout(t).bodyWidthMm == 108
  {
  }

  /** Compact mode tightens every spacing and the line height, and touches
      nothing else. */
  lemma {:induction false} CompactIsTighter(t: Thermal)
    ensures var c, n := ThermalLayout(t.(compactMode := true)), ThermalLayout(t.(compactMode := false));
            c.lineHeight < n.lineHeight && c.headerSpacingMm < n.headerSpacingMm
            && c.sectionPaddingMm < n.sectionPaddingMm
            && c.fontPx == n.fontPx && c.bodyWidthMm == n.bodyWidthMm
            && c.titlePx == n.titlePx && c.smallPx == n.smallPx
  {
  }

  /** The optional parts of the test receipt. */
  datatype TestReceipt = TestReceipt(logo: Option<string>, gstLine: Option<string>, paymentQR: Option<string>)

  /** `testThermalPrint`: the logo only when one is set and logos are
      enabled, the GST line only with a tax id, the QR block only when a
      code is set and QR printing is enabled. */
  function TestPrint(s: Settings): (r: TestReceipt)
    ensures r.logo.Some? <==> s.logo != "" && s.printing.includeLogo
    ensures r.logo.Some? ==> r.logo.value == s.logo
    ensures r.gstLine.Some? <==> s.taxId != ""
    ensures r.gstLine.Some? ==> r.gstLine.value == "GST: " + s.taxId
    ensures r.paymentQR.Some? <==> s.paymentQR != "" && s.printing.includeQR
    ensures r.paymentQR.Some? ==> r.paymentQR.value == s.paymentQR
  {
    TestReceipt(
      if s.logo != "" && s.printing.includeLogo then Some(s.logo) else None,
      if s.taxId != "" then Some("GST: " + s.taxId) else None,
      if s.paymentQR != "" && s.printing.includeQR then Some(s.paymentQR) else None)
  }

  /** A fresh install prints neither logo, GST line nor QR code. */
  lemma {:induction false} DefaultsPrintPlain()
    ensures TestPrint(Load(None)) == TestReceipt(None, None, None)
  {
  }
}
