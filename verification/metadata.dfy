/** The receipt page metadata of `src/lib/metadata-utils.ts`. */
module ReceiptMetadata {
  import opened Wrappers
  import opened Strings
  import opened PaymentTypes

  datatype OpenGraph = OpenGraph(title: string, description: string, kind: string)

  datatype Twitter = Twitter(card: string, title: string, description: string)

  datatype Metadata = Metadata(title: string, description: string, openGraph: Option<OpenGraph>, twitter: Option<Twitter>)

  /** `${paymentValue} ${currency}`. */
  function AmountText(p: Payment): string {
    p.display.paymentValue + " " + p.display.currency
  }

  const TITLE_PREFIX: string := "Payment Receipt - "
  const DESCRIPTION_PREFIX: string := "Check out this payment receipt for "

  /** `generatePaymentMetadata`: one title and one description, repeated in
      the Open Graph and Twitter blocks. */
  function GeneratePaymentMetadata(p: Payment): (r: Metadata)
    ensures r.title == TITLE_PREFIX + AmountText(p)
    ensures r.description == DESCRIPTION_PREFIX + AmountText(p)
    ensures r.openGraph == Some(OpenGraph(r.title, r.description, "website"))
    ensures r.twitter == Some(Twitter("summary", r.title, r.description))
  {
    var title := TITLE_PREFIX + AmountText(p);
    var description := DESCRIPTION_PREFIX + AmountText(p);
    Metadata(title, description, Some(OpenGraph(title, description, "website")), Some(Twitter("summary", title, description)))
  }

  /** `generateErrorMetadata`: a constant, with no social blocks. */
  function GenerateErrorMetadata(): (r: Metadata)
    ensures r.openGraph.None? && r.twitter.None?
    ensures r.title == "Payment Receipt - Error"
    ensures r.description == "Unable to load payment receipt. Please check the payment ID and try again."
  {
    Metadata("Payment Receipt - Error", "Unable to load payment receipt. Please check the payment ID and try again.", None, None)
  }

  /** The title and text the share button passes to the Web Share API. */
  function ShareTitle(p: Payment): string {
    "Payment Receipt - " + p.display.paymentValue + " " + p.display.currency
  }

  function ShareText(p: Payment): string {
    "Check out this payment receipt for " + p.display.paymentValue + " " + p.display.currency
  }

  /** The page's metadata and the shared receipt agree. */
  lemma MetadataMatchesShare(p: Payment)
    ensures GeneratePaymentMetadata(p).title == ShareTitle(p)
    ensures GeneratePaymentMetadata(p).description == ShareText(p)
  {
  }

  /** The title determines the amount text: receipts with different amounts
      get different titles. */
  lemma TitleDeterminesAmount(p: Payment, q: Payment)
    requires GeneratePaymentMetadata(p).title == GeneratePaymentMetadata(q).title
    ensures AmountText(p) == AmountText(q)
  {
    var tp := GeneratePaymentMetadata(p).title;
    assert AmountText(p) == tp[|TITLE_PREFIX|..];
    assert AmountText(q) == tp[|TITLE_PREFIX|..];
  }

  /** A payment's title is never the error title: the amount text always
      holds a space and "Error" does not. */
  lemma PaymentTitleIsNotErrorTitle(p: Payment)
    ensures GeneratePaymentMetadata(p).title != GenerateErrorMetadata().title
  {
    var t := GeneratePaymentMetadata(p).title;
    var e := GenerateErrorMetadata().title;
    var k := |TITLE_PREFIX| + |p.display.paymentValue|;
    assert t[k] == ' ';
    assert forall i :: |TITLE_PREFIX| <= i < |e| ==> e[i] != ' ';
  }
}
