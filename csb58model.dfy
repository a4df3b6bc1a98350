/** The data the CSB 58 driver works on: the receipts of a payment group, the
    journal option it reads, the `values` dictionary it fills in, and the
    configuration errors it raises. Amounts are whole cents. */
module Csb58Model {
  import opened Wrappers

  /** A date field that the driver only copies into records. The triple stands
      for any date or timestamp value, the time of day of `create_date`
      included: no calendar or time property is read from it. */
  datatype Date = Date(year: int, month: int, day: int)

  datatype Party = Party(name: string, code: string)

  /** The party's invoice address record and a country record; the driver only
      asks whether they are present. */
  datatype AddressRef = AddressRef(id: nat)
  datatype CountryRef = CountryRef(code: string)

  /** One receipt dictionary. Text fields are strings: the driver tests the
      truth of `zip` and `city` (an empty string here stands for both None and
      '') and copies `name`, `bank_account`, `communication`, `street`, `zip`
      and `city` into records. */
  datatype Receipt = Receipt(
    party: Party,
    reference: string,
    name: string,
    bankAccount: string,
    amount: int,
    communication: string,
    maturityDate: Date,
    address: Option<AddressRef>,
    street: string,
    zip: string,
    city: string,
    country: Option<CountryRef>,
    createDate: Date)

  /** The payment journal, of which only the CSB 58 domicile option is read. */
  datatype Journal = Journal(csb58IncludeDomicile: bool)

  /** The dictionary the generic payment module hands over: company, bank and
      batch data, the total amount and the receipts in iteration order. The
      bank account and the INE code are strings: a None there is not
      represented. */
  datatype PaymentValues = PaymentValues(
    paymentJournal: Journal,
    vatNumber: string,
    suffix: string,
    creationDate: Date,
    companyName: string,
    bankAccount: string,
    ineCode: string,
    city: string,
    province: string,
    amount: int,
    receipts: seq<Receipt>)

  /** The dictionary once the CSB 58 keys are added: the domicile flag and the
      three counters the file builder increments. */
  datatype Values = Values(
    payment: PaymentValues,
    includeDomicile: bool,
    recordCount: nat,
    orderingRecords: nat,
    orderingRecordCount: nat)

  /** The two user errors the preparation step raises, each naming the party. */
  datatype ConfigError =
    | PartyWithoutAddress(partyName: string)
    | PartyWithoutCompleteAddress(partyName: string)
}
