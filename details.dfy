/**
 * The two formatters of the invoice-lookup detail panel: `format_date`
 * (DD-MM-YYYY, 'N/A', or the raw text when it does not parse) and
 * `format_romaneio` (a float loses its fraction before printing).
 */
module Details {
  import opened Wrappers
  import opened Numerals
  import opened Dates
  import opened Records

  const NotAvailable: string := "N/A"

  /** `format_date`. */
  function DetailDate(c: DateCell): (r: string)
    ensures c.Blank? || IsBlankText(c) ==> r == NotAvailable
    ensures c.Text? && !IsBlankText(c) && ToDatetime(c).None? ==> r == c.text
    ensures !IsBlankText(c) && ToDatetime(c).Some? ==> ParseDate(r, '-') == Some(ToDatetime(c).value)
  {
    match c
    case Blank => NotAvailable
    case Text(t, p) =>
      if t == "" || t == "N/A" then NotAvailable
      else (match p
            case None => t
            case Some(d) => FormatDateReadsBack(d, '-'); FormatDate(d, '-'))
    case Stamp(d) => FormatDateReadsBack(d, '-'); FormatDate(d, '-')
  }

  /** `format_romaneio`. */
  function DetailRomaneio(c: RomaneioCell): (r: string)
    ensures c.NoRomaneio? || c == RomaneioText("") ==> r == NotAvailable
    ensures c.RomaneioText? && c.text != "" ==> r == c.text
    ensures c.RomaneioInt? ==> ParseInt(r) == Some(c.whole)
    // A float is shown as the whole number it truncates to: no ".0".
    ensures c.RomaneioFloat? ==> ParseInt(r) == Some(Truncate(c.number))
  {
    match c
    case NoRomaneio => NotAvailable
    case RomaneioText(s) => if s == "" then NotAvailable else s
    case RomaneioInt(i) => IntToStringParses(i); IntToString(i)
    case RomaneioFloat(x) => IntToStringParses(Truncate(x)); IntToString(Truncate(x))
  }
}
