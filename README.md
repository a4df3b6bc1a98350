# CSB 58 remittance driver for Tryton payment groups

This project models the part of the Tryton module `account_payment_es_csb_58`
that turns a payment group into a Spanish banking CSB 58 remittance file. The
modelled steps are:

- **Preparation** (`Group.set_default_csb58_payment_values`). The generic
  payment values are extended with the journal's "include domicile" flag and
  three counters set to zero. Each receipt, in order, gets its party's code as
  reference and is then checked for an address and for a zip, city and
  country. The first receipt that fails raises a configuration error naming
  its party.
- **File building** (`Group.process_csb58`). Seven record builders fill one
  CSB 58 record each from the values and the current receipt. The driver
  emits these records and concatenates their encodings:
  1. the presenter header (51) and the ordering header (53);
  2. for each receipt, a required individual record (56/70), followed by an
     address individual record (56/76) when the domicile flag is set;
  3. the ordering footer (58) and the presenter footer (59).

  The driver keeps a record counter, a detail-record counter
  (`ordering_records`) and an ordering record count. The ordering record
  count is set to the detail-record counter plus two just before the ordering
  footer is built. The record counter is raised by two for the footer pair
  before the presenter footer is built.

Modules:

- `Wrappers`: `Option` and `Result`.
- `PyBuiltins`: the Python operations the builders apply, with CPython's
  semantics written out:
  - a clamped slice `s[i:j]`;
  - `str.zfill`;
  - `str(n)` for a counter, with its read-back.
- `Csb58Model`: receipts, the journal option, the `values` dictionary and the
  two configuration errors.
- `Csb58Records`: the seven record kinds and their builders.
- `Csb58Group`: the parts of the driver:
  - the preparation specification and method;
  - the file specification (`Details`, `Counted`, `FileRecords`, `Render`,
    `Remit`);
  - the emitting methods (`EmitHeaders`, `EmitReceipts`, `EmitFooters`,
    `EmitRecords`, `ProcessCsb58`);
  - the lemmas about the file.

The record encoder `retrofix.write`, applied to a one-record list, is the
parameter `write: Record -> string`. The text of a record sequence is the
concatenation of the encodings, in order (`Render`).

## Model

| member | source | states |
|---|---|---|
| PyBuiltins.Slice | payment.py:76-77 | Python's `s[i:j]` clamps both bounds to the string's length; the result has length max(0, min(j,n) - min(i,n)) and holds the characters from position i on |
| PyBuiltins.SliceJoin | payment.py:76-77 | the bank code `[0:4]` and the bank office `[4:8]` join to the first eight characters of the account (or all of it when shorter), for every account length |
| PyBuiltins.ZFill | payment.py:90 | `zfill(9)`: the length is max(len, 9); a string of nine or more characters is unchanged; a shorter unsigned one is left-padded with '0'; a shorter signed one keeps its sign ahead of the zeros |
| PyBuiltins.NatToDecimal | payment.py:143-144 | `str(n)` of a counter is a non-empty string of decimal digits, one digit long below ten, that starts with '0' exactly when n is 0 (so zero is "0") |
| PyBuiltins.DecimalRoundTrip | payment.py:155-156 | reading back the decimal text of a counter yields the counter |
| Csb58Records.PresenterHeaderRecord | payment.py:68-78 | codes 51/70; the presenter's NIF and suffix; the bank code and office are the first and second four characters of the account |
| Csb58Records.OrderingHeaderRecord | payment.py:80-91 | codes 53/70; the full account, procedure "06" and the INE code zero-filled to nine characters |
| Csb58Records.RequiredIndividualRecord | payment.py:93-107 | codes 56/70; the receipt's reference and signed amount; empty return and internal codes |
| Csb58Records.OptionalIndividualRecord | payment.py:109-119 | codes 56/71; the receipt's reference and three empty concept continuations |
| Csb58Records.AddressIndividualRecord | payment.py:121-134 | codes 56/76; the receipt's reference, city and zip; the company's city and province |
| Csb58Records.OrderingFooterRecord | payment.py:136-145 | codes 58/70; the total amount; its line count reads back as `ordering_records`; its record count reads back as `ordering_record_count` |
| Csb58Records.PresenterFooterRecord | payment.py:147-157 | codes 59/70; ordering count "0001"; the total amount; its line count reads back as `ordering_records`; its record count reads back as `record_count` |
| Csb58Group.ReceiptError | payment.py:55-63 | a receipt raises no error exactly when its address, zip, city and country are all present; an error names the receipt's party; a missing address is reported as such, ahead of an incomplete one |
| Csb58Group.SetDefaultCsb58PaymentValues | payment.py:45-64 | the loop over the receipts yields exactly `Prepare`: the first failing receipt's error, or the values with the journal's flag, zero counters and every receipt stamped with its party's code |
| Csb58Group.FirstErrorIsFirstIncomplete | payment.py:52-63 | the receipt loop finds no error exactly when every receipt has a complete address; otherwise its error is that of a receipt preceded only by complete ones |
| Csb58Group.PrepareFailsOnFirstIncompleteReceipt | payment.py:52-63 | preparation fails if and only if some receipt is incomplete; it then fails with the error of the first incomplete receipt: no address, or an incomplete address |
| Csb58Group.PrepareSucceeds | payment.py:46-53 | a successful preparation has the journal's domicile flag and three zero counters; every receipt is unchanged except that its reference is its party's code, and every receipt has a complete address |
| Csb58Group.DetailsLength | payment.py:164-171 | the receipts contribute one detail record each, or two with the domicile flag |
| Csb58Group.RenderAppend | payment.py:160-175 | the text of two record runs emitted one after the other is the first run's text followed by the second's |
| Csb58Group.DetailsIgnoreCounters | payment.py:93-134 | the per-receipt builders do not read the counters: values that differ only in their counters build the same detail records |
| Csb58Group.EmitHeaders | payment.py:160-163 | emits the presenter header and then the ordering header, with their text, and raises the record counter by two |
| Csb58Group.EmitReceipts | payment.py:164-171 | the receipt loop emits exactly the specified detail records in receipt order, with their text, and raises the record counter and the detail-record counter by the number of records emitted |
| Csb58Group.EmitFooters | payment.py:172-175 | sets the ordering record count to the detail-record counter plus two; emits the ordering footer; raises the record counter by two; then emits the presenter footer from those final values |
| Csb58Group.EmitRecords | payment.py:160-175 | the emitted records are exactly `FileRecords`, the text is their concatenated encodings, and the final counters are `Counted` |
| Csb58Group.ProcessCsb58 | payment.py:159-176 | processing yields exactly `Remit`: the preparation error with no file, or the whole file built from the prepared values |
| Csb58Group.DetailsWithoutDomicile | payment.py:164-167 | without the flag, detail record i is receipt i's required individual record, one per receipt |
| Csb58Group.DetailsWithDomicile | payment.py:164-171 | with the flag, detail records 2i and 2i+1 are receipt i's required individual and address records, two per receipt |
| Csb58Group.DetailsKinds | payment.py:164-171 | every detail record is an individual (56) record with its kind's codes; it is either a required individual record or, only with the flag, an address record |
| Csb58Group.FileLayout | payment.py:160-175 | the file is: presenter header, ordering header, the detail records, the ordering footer and the presenter footer built from the final counters; it has four records more than there are detail records |
| Csb58Group.FileKinds | payment.py:69-175 | every record carries its kind's codes; the 56 records are exactly the ones between the headers and the footers; the optional individual record never appears; without the flag, no address record does either |
| Csb58Group.FooterCounters | payment.py:136-175 | the ordering record count is the detail-record counter plus two, and it is the ordering footer's record count; both footers report the same detail-record count and the same total amount; the ordering count is "0001"; the presenter footer's record count is the starting count plus every record of the file, footers included |
| Csb58Group.ProcessFailure | payment.py:159-176 | processing fails if and only if some receipt lacks an address or part of it, and with the error preparation reports |
| Csb58Group.ProcessCounts | payment.py:159-175 | for n receipts a processed file has 4 + n records, or 4 + 2n with the flag. The final record counter is that length, the detail-record counter is the length less four, and the ordering record count is the length less two. The footers are built from those final values, and the text is the records' encodings in order |
| Csb58Group.FileDetails | payment.py:164-171 | record 2+i is receipt i's required individual record; with the flag, records 2+2i and 3+2i are its required individual and address records |
| Csb58Group.ProcessReferencesWithoutDomicile | payment.py:53-107 | without the flag, record 2+i of a processed group's file is a required individual record carrying the code of receipt i's party as reference |
| Csb58Group.ProcessReferencesWithDomicile | payment.py:53-134 | with the flag, records 2+2i and 3+2i of a processed group's file are the required individual and address records of receipt i, both carrying its party's code as reference |

## Left out

- The `retrofix` library, which defines the record layouts, the field widths,
  the padding and truncation, and `write`, is not part of this model. The
  encoder is the parameter `write`. The records are values with one field per
  attribute the driver sets. Fixed widths, truncation of oversized values and
  the numeric formatting of amounts therefore belong to `write` and are not
  modelled.
- `set_default_payment_values` belongs to the generic payment module and is
  not part of this model. Its result, the company, bank and batch data with
  the receipts and the total amount, is the input `PaymentValues`. Summing and
  joining the receipts and checking bank accounts happen there and are not
  modelled.
- `Journal.__setup__` adds a selection entry to the framework's process
  methods. `default_csb58_include_domicile` returns the field default `False`.
  Both are framework registration and are not modelled. The journal is the
  value `Journal(csb58IncludeDomicile)`, so a None field value is `false`.
- `group.attach_file(text)` stores the text. This is I/O, so `ProcessCsb58`
  returns the text instead.
- `raise_user_error` translates an error key into a message and raises it.
  The model returns the `ConfigError` constructor and the party name as a
  `Failure`. Message wording and translation are not modelled.
- `SetDefaultCsb58PaymentValues`: the source mutates the receipt dictionaries
  in place. On the error path, the receipts up to the failing one keep their
  new reference when the error is raised. The model returns only the error,
  because the dictionary is local to the run and dropped with the exception.
  Aliasing of receipt dictionaries is not modelled.
- `EmitRecords`: the source appends every record's text to one `text`
  variable. The model's receipt loop builds its own records and text, and
  `EmitRecords` appends them to the header text. `RenderAppend` proves the
  result is the same concatenation.
- `EmitReceipts`: the source increments two keys of one dictionary inside
  the loop. The model keeps the two counters in locals and rebuilds the
  values dictionary from them each time a builder reads it.
- The source's builders are closures over `values` and `receipt` that return
  `write([record])`. The model's builders return the record, and the emitting
  methods apply `write`.
- Text fields are strings. Where the driver tests a field's truth (`zip` and
  `city`, payment.py:59-60), the empty string stands for both None and ''.
  The address and the country are `Option`s. Other text fields (`name`,
  `bank_account`, `communication`, `street`) are only copied into records,
  so a None there is left to the encoder.
- `OrderingHeaderRecord`: assumes `ine_code` is a string. In the source, a
  None INE code raises AttributeError at `zfill` (payment.py:90) and no file
  is built. The model has no None there, so it does not capture that failure.
- `PresenterHeaderRecord`: assumes the company's `bank_account` is a string.
  In the source, a None account raises at the slices (payment.py:76-77),
  unless the generic payment module rules it out. The model does not
  capture that failure.
- Dates are a `Date(year, month, day)` triple that the driver only copies
  into records. The triple stands for any date or timestamp: the time of day
  of `create_date` is not represented, and no property of a date is read.
- Amounts are integers, standing for the decimal amounts of the source.
- The module's tests and `__init__.py` (pool registration) are not modelled.
