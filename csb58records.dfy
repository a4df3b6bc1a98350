/** The seven CSB 58 record kinds and the builders that fill one record from
    the current values and receipt. Field widths and padding belong to the
    encoder and are not part of a record value. */
module Csb58Records {
  import opened PyBuiltins
  import opened Csb58Model

  /** A CSB 58 record: every kind starts with the record code, the data code,
      the presenter's NIF and the suffix; the rest depends on the kind. */
  datatype Record = Record(recordCode: string, dataCode: string, nif: string, suffix: string,
                           body: Body)

  datatype Body =
    | PresenterHeader(creationDate: Date, name: string, bankCode: string, bankOffice: string)
    | OrderingHeader(creationDate: Date, name: string, account: string, procedure: string,
                     ine: string)
    | RequiredIndividual(reference: string, name: string, account: string, amount: int,
                         returnCode: string, internalCode: string, concept: string,
                         dueDate: Date)
    | OptionalIndividual(reference: string, concept2: string, concept3: string,
                         concept4: string)
    | AddressIndividual(reference: string, payerAddress: string, payerCity: string,
                        payerZip: string, orderingCity: string, provinceCode: string,
                        originDate: Date)
    | OrderingFooter(amount: int, paymentLineCount: string, recordCount: string)
    | PresenterFooter(orderingCount: string, amount: int, paymentLineCount: string,
                      recordCount: string)

  /** The record code the CSB 58 format assigns to each kind. */
  function KindRecordCode(b: Body): string
  {
    match b
    case PresenterHeader(_, _, _, _) => "51"
    case OrderingHeader(_, _, _, _, _) => "53"
    case RequiredIndividual(_, _, _, _, _, _, _, _) => "56"
    case OptionalIndividual(_, _, _, _) => "56"
    case AddressIndividual(_, _, _, _, _, _, _) => "56"
    case OrderingFooter(_, _, _) => "58"
    case PresenterFooter(_, _, _, _) => "59"
  }

  /** The data code the CSB 58 format assigns to each kind. */
  function KindDataCode(b: Body): string
  {
    match b
    case OptionalIndividual(_, _, _, _) => "71"
    case AddressIndividual(_, _, _, _, _, _, _) => "76"
    case _ => "70"
  }

  /** A record whose two codes are those of its kind. */
  predicate Coded(r: Record)
  {
    r.recordCode == KindRecordCode(r.body) && r.dataCode == KindDataCode(r.body)
  }

  /** Records of the individual (per-receipt) group all carry record code 56. */
  predicate IsIndividual(r: Record)
  {
    r.recordCode == "56"
  }

  /** Presenter header: the bank code and office are the first and second
      four characters of the presenter's account number. */
  function PresenterHeaderRecord(values: Values): (r: Record)
    ensures r.body.PresenterHeader? && Coded(r)
    ensures r.nif == values.payment.vatNumber && r.suffix == values.payment.suffix
    ensures r.body.bankCode + r.body.bankOffice ==
      values.payment.bankAccount[..Min(8, |values.payment.bankAccount|)]
    ensures |r.body.bankCode| == Min(4, |values.payment.bankAccount|)
  {
    var p := values.payment;
    SliceJoin(p.bankAccount, 0, 4, 8);
    Record("51", "70", p.vatNumber, p.suffix,
           PresenterHeader(p.creationDate, p.companyName,
                           Slice(p.bankAccount, 0, 4), Slice(p.bankAccount, 4, 8)))
  }

  /** Ordering header: procedure "06" and the INE code zero-filled to nine
      characters, or kept as it is when already nine or longer. */
  function OrderingHeaderRecord(values: Values): (r: Record)
    ensures r.body.OrderingHeader? && Coded(r)
    ensures r.nif == values.payment.vatNumber && r.suffix == values.payment.suffix
    ensures r.body.account == values.payment.bankAccount && r.body.procedure == "06"
    ensures |r.body.ine| == Max(9, |values.payment.ineCode|)
    ensures |values.payment.ineCode| >= 9 ==> r.body.ine == values.payment.ineCode
    ensures |values.payment.ineCode| < 9 && !HasSign(values.payment.ineCode) ==>
      r.body.ine == Zeros(9 - |values.payment.ineCode|) + values.payment.ineCode
  {
    var p := values.payment;
    Record("53", "70", p.vatNumber, p.suffix,
           OrderingHeader(p.creationDate, p.companyName, p.bankAccount, "06", ZFill(p.ineCode, 9)))
  }

  /** Required individual record: one per receipt, carrying the receipt's
      reference and its signed amount. */
  function RequiredIndividualRecord(values: Values, receipt: Receipt): (r: Record)
    ensures r.body.RequiredIndividual? && Coded(r)
    ensures r.nif == values.payment.vatNumber && r.suffix == values.payment.suffix
    ensures r.body.reference == receipt.reference && r.body.amount == receipt.amount
    ensures r.body.returnCode == "" && r.body.internalCode == ""
  {
    Record("56", "70", values.payment.vatNumber, values.payment.suffix,
           RequiredIndividual(receipt.reference, receipt.name, receipt.bankAccount,
                              receipt.amount, "", "", receipt.communication,
                              receipt.maturityDate))
  }

  /** Optional individual record (concept continuation): defined by the format,
      with empty continuation fields. */
  function OptionalIndividualRecord(values: Values, receipt: Receipt): (r: Record)
    ensures r.body.OptionalIndividual? && Coded(r)
    ensures r.body.reference == receipt.reference
    ensures r.body.concept2 == "" && r.body.concept3 == "" && r.body.concept4 == ""
  {
    Record("56", "71", values.payment.vatNumber, values.payment.suffix,
           OptionalIndividual(receipt.reference, "", "", ""))
  }

  /** Address individual record: the payer's street, city and zip next to the
      ordering company's city and province. */
  function AddressIndividualRecord(values: Values, receipt: Receipt): (r: Record)
    ensures r.body.AddressIndividual? && Coded(r)
    ensures r.body.reference == receipt.reference
    ensures r.body.payerCity == receipt.city && r.body.payerZip == receipt.zip
    ensures r.body.orderingCity == values.payment.city
    ensures r.body.provinceCode == values.payment.province
  {
    Record("56", "76", values.payment.vatNumber, values.payment.suffix,
           AddressIndividual(receipt.reference, receipt.street, receipt.city, receipt.zip,
                             values.payment.city, values.payment.province, receipt.createDate))
  }

  /** Ordering footer: the total amount, the detail-record counter and the
      ordering record counter, both as decimal text. */
  function OrderingFooterRecord(values: Values): (r: Record)
    ensures r.body.OrderingFooter? && Coded(r)
    ensures r.body.amount == values.payment.amount
    ensures DecimalToNat(r.body.paymentLineCount) == values.orderingRecords
    ensures DecimalToNat(r.body.recordCount) == values.orderingRecordCount
  {
    DecimalRoundTrip(values.orderingRecords);
    DecimalRoundTrip(values.orderingRecordCount);
    Record("58", "70", values.payment.vatNumber, values.payment.suffix,
           OrderingFooter(values.payment.amount, NatToDecimal(values.orderingRecords),
                          NatToDecimal(values.orderingRecordCount)))
  }

  /** Presenter footer: a single ordering group ("0001"), the total amount,
      the detail-record counter and the total record counter. */
  function PresenterFooterRecord(values: Values): (r: Record)
    ensures r.body.PresenterFooter? && Coded(r)
    ensures r.body.orderingCount == "0001" && r.body.amount == values.payment.amount
    ensures DecimalToNat(r.body.paymentLineCount) == values.orderingRecords
    ensures DecimalToNat(r.body.recordCount) == values.recordCount
  {
    DecimalRoundTrip(values.orderingRecords);
    DecimalRoundTrip(values.recordCount);
    Record("59", "70", values.payment.vatNumber, values.payment.suffix,
           PresenterFooter("0001", values.payment.amount, NatToDecimal(values.orderingRecords),
                           NatToDecimal(values.recordCount)))
  }
}
