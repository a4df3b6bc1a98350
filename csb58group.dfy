/** The payment group's CSB 58 driver: preparing the receipts (validation,
    reference stamping, counters) and building the remittance file. */
module Csb58Group {
  import opened Wrappers
  import opened PyBuiltins
  import opened Csb58Model
  import opened Csb58Records

  // ---------------------------------------------------------------------
  // Preparation
  // ---------------------------------------------------------------------

  /** A receipt the file can be built from: it has an address, and the zip,
      city and country are all filled in. */
  predicate HasCompleteAddress(r: Receipt)
  {
    r.address.Some? && r.zip != "" && r.city != "" && r.country.Some?
  }

  /** The error a single receipt raises, if any: a missing address is reported
      before an incomplete one. */
  function ReceiptError(r: Receipt): (e: Option<ConfigError>)
    ensures e.None? <==> HasCompleteAddress(r)
    ensures e.Some? ==> e.value.partyName == r.party.name
    ensures e.Some? ==> (e.value.PartyWithoutAddress? <==> r.address.None?)
  {
    if r.address.None? then Some(PartyWithoutAddress(r.party.name))
    else if r.zip == "" || r.city == "" || r.country.None? then
      Some(PartyWithoutCompleteAddress(r.party.name))
    else None
  }

  /** The error of the first receipt, in iteration order, that raises one. */
  function FirstError(rs: seq<Receipt>): Option<ConfigError>
  {
    if rs == [] then None
    else if ReceiptError(rs[0]).Some? then ReceiptError(rs[0])
    else FirstError(rs[1..])
  }

  /** The receipt with its reference set to its party's code. */
  function Stamped(r: Receipt): Receipt
  {
    r.(reference := r.party.code)
  }

  function StampAll(rs: seq<Receipt>): seq<Receipt>
  {
    seq(|rs|, i requires 0 <= i < |rs| => Stamped(rs[i]))
  }

  /** What preparing the group's values yields: the first receipt error, or
      the values with the domicile flag, zero counters and stamped receipts. */
  function Prepare(payment: PaymentValues): Result<Values, ConfigError>
  {
    match FirstError(payment.receipts)
    case Some(e) => Failure(e)
    case None =>
      Success(Values(payment.(receipts := StampAll(payment.receipts)),
                     payment.paymentJournal.csb58IncludeDomicile, 0, 0, 0))
  }

  /** Adds the CSB 58 keys to the payment values and checks every receipt's
      address, stamping each receipt's reference before checking it. */
  method SetDefaultCsb58PaymentValues(payment: PaymentValues) returns (r: Result<Values, ConfigError>)
    ensures r == Prepare(payment)
  {
    var values := Values(payment, payment.paymentJournal.csb58IncludeDomicile, 0, 0, 0);
    var receipts := payment.receipts;
    var i := 0;
    while i < |receipts|
      invariant 0 <= i <= |receipts| == |payment.receipts|
      invariant forall j :: 0 <= j < i ==> receipts[j] == Stamped(payment.receipts[j])
      invariant forall j :: i <= j < |receipts| ==> receipts[j] == payment.receipts[j]
      invariant FirstError(payment.receipts) == FirstError(payment.receipts[i..])
    {
      receipts := receipts[i := receipts[i].(reference := receipts[i].party.code)];
      assert payment.receipts[i..][1..] == payment.receipts[i + 1..];
      if receipts[i].address.None? {
        return Failure(PartyWithoutAddress(receipts[i].party.name));
      }
      if receipts[i].zip == "" || receipts[i].city == "" || receipts[i].country.None? {
        return Failure(PartyWithoutCompleteAddress(receipts[i].party.name));
      }
      i := i + 1;
    }
    assert receipts == StampAll(payment.receipts);
    r := Success(values.(payment := payment.(receipts := receipts)));
  }

  lemma {:induction false} FirstErrorIsFirstIncomplete(rs: seq<Receipt>)
    ensures FirstError(rs).None? <==> forall k :: 0 <= k < |rs| ==> HasCompleteAddress(rs[k])
    ensures FirstError(rs).Some? ==>
      exists k :: 0 <= k < |rs| && FirstError(rs) == ReceiptError(rs[k]) &&
        forall j :: 0 <= j < k ==> HasCompleteAddress(rs[j])
  {
    if rs != [] && ReceiptError(rs[0]).None? {
      FirstErrorIsFirstIncomplete(rs[1..]);
      if FirstError(rs).Some? {
        var k :| 0 <= k < |rs[1..]| && FirstError(rs[1..]) == ReceiptError(rs[1..][k]) &&
          forall j :: 0 <= j < k ==> HasCompleteAddress(rs[1..][j]);
        assert FirstError(rs) == ReceiptError(rs[k + 1]);
        assert forall j :: 0 <= j < k + 1 ==> HasCompleteAddress(rs[j]) by {
          forall j | 0 <= j < k + 1 ensures HasCompleteAddress(rs[j]) {
            if j > 0 { assert rs[j] == rs[1..][j - 1]; }
          }
        }
      } else {
        forall k | 0 <= k < |rs| ensures HasCompleteAddress(rs[k]) {
          if k > 0 { assert rs[k] == rs[1..][k - 1]; }
        }
      }
    }
  }

  /** Preparation fails exactly when some receipt lacks an address or part of
      it, and then with the error of the first such receipt: a missing address
      at that receipt wins over a missing zip, city or country. */
  lemma PrepareFailsOnFirstIncompleteReceipt(payment: PaymentValues)
    ensures Prepare(payment).Failure? <==>
      exists k :: 0 <= k < |payment.receipts| && !HasCompleteAddress(payment.receipts[k])
    ensures Prepare(payment).Failure? ==>
      exists k :: 0 <= k < |payment.receipts| && !HasCompleteAddress(payment.receipts[k]) &&
        (forall j :: 0 <= j < k ==> HasCompleteAddress(payment.receipts[j])) &&
        Prepare(payment).error ==
          (if payment.receipts[k].address.None?
           then PartyWithoutAddress(payment.receipts[k].party.name)
           else PartyWithoutCompleteAddress(payment.receipts[k].party.name))
  {
    FirstErrorIsFirstIncomplete(payment.receipts);
  }

  /** After a successful preparation every receipt carries its party's code as
      reference and is otherwise unchanged, every receipt has a complete
      address, the counters are zero and the domicile flag is the journal's. */
  lemma PrepareSucceeds(payment: PaymentValues)
    requires Prepare(payment).Success?
    ensures var v := Prepare(payment).value;
      && v.includeDomicile == payment.paymentJournal.csb58IncludeDomicile
      && v.recordCount == 0 && v.orderingRecords == 0 && v.orderingRecordCount == 0
      && v.payment == payment.(receipts := v.payment.receipts)
      && |v.payment.receipts| == |payment.receipts|
      && forall i :: 0 <= i < |payment.receipts| ==>
           && v.payment.receipts[i] == payment.receipts[i].(reference := payment.receipts[i].party.code)
           && HasCompleteAddress(v.payment.receipts[i])
  {
    FirstErrorIsFirstIncomplete(payment.receipts);
  }

  // ---------------------------------------------------------------------
  // File builder
  // ---------------------------------------------------------------------

  /** The detail records for a sequence of receipts, in emission order: for
      each receipt the required individual record, then the address record
      when the domicile flag is set. */
  function Details(values: Values, rs: seq<Receipt>): seq<Record>
  {
    if rs == [] then []
    else
      var last := rs[|rs| - 1];
      var d := Details(values, rs[..|rs| - 1]) + [RequiredIndividualRecord(values, last)];
      if values.includeDomicile then d + [AddressIndividualRecord(values, last)] else d
  }

  /** The number of detail records of a file: one per receipt, or two with
      the domicile flag. */
  function DetailCount(values: Values): nat
  {
    if values.includeDomicile then 2 * |values.payment.receipts| else |values.payment.receipts|
  }

  lemma {:induction false} DetailsLength(values: Values, rs: seq<Receipt>)
    ensures |Details(values, rs)| == if values.includeDomicile then 2 * |rs| else |rs|
  {
    if rs != [] {
      DetailsLength(values, rs[..|rs| - 1]);
    }
  }

  /** The values once the file is built: each emitted record counted in
      `recordCount`, each detail record in `orderingRecords`, and the ordering
      record count two more than the detail records. */
  function Counted(values: Values): Values
  {
    var d := DetailCount(values);
    values.(recordCount := values.recordCount + d + 4,
            orderingRecords := values.orderingRecords + d,
            orderingRecordCount := values.orderingRecords + d + 2)
  }

  /** The records of the remittance file, in emission order. */
  function FileRecords(values: Values): seq<Record>
  {
    var final := Counted(values);
    [PresenterHeaderRecord(values)] + [OrderingHeaderRecord(values)] +
    Details(values, values.payment.receipts) +
    [OrderingFooterRecord(final)] + [PresenterFooterRecord(final)]
  }

  /** The text of a record sequence: the encodings of the records, concatenated
      in order. */
  function Render(write: Record -> string, records: seq<Record>): string
  {
    if records == [] then []
    else Render(write, records[..|records| - 1]) + write(records[|records| - 1])
  }

  /** Appending a record appends its encoding. */
  lemma RenderSnoc(write: Record -> string, records: seq<Record>, r: Record)
    ensures Render(write, records + [r]) == Render(write, records) + write(r)
  {
    assert (records + [r])[..|records|] == records;
  }

  /** The text of two record sequences one after the other is the text of the
      first followed by the text of the second. */
  lemma {:induction false} RenderAppend(write: Record -> string, a: seq<Record>, b: seq<Record>)
    ensures Render(write, a + b) == Render(write, a) + Render(write, b)
  {
    if b == [] {
      assert a + b == a;
    } else {
      assert (a + b)[..|a + b| - 1] == a + b[..|b| - 1];
      assert (a + b)[|a + b| - 1] == b[|b| - 1];
      RenderAppend(write, a, b[..|b| - 1]);
    }
  }

  /** The per-receipt builders read no counter: values that differ only in
      their counters build the same detail records. */
  lemma {:induction false} DetailsIgnoreCounters(v: Values, w: Values, rs: seq<Receipt>)
    requires v.payment == w.payment && v.includeDomicile == w.includeDomicile
    ensures Details(v, rs) == Details(w, rs)
  {
    if rs != [] {
      DetailsIgnoreCounters(v, w, rs[..|rs| - 1]);
    }
  }

  /** The presenter and ordering headers, each counted as it is emitted. */
  method EmitHeaders(start: Values, write: Record -> string)
    returns (values: Values, records: seq<Record>, text: string)
    ensures records == [PresenterHeaderRecord(start)] + [OrderingHeaderRecord(start)]
    ensures text == Render(write, records)
    ensures values == start.(recordCount := start.recordCount + 2)
  {
    values := start;
    var rec := PresenterHeaderRecord(values);
    records, text := [rec], write(rec);
    assert Render(write, records) == text by { RenderSnoc(write, [], rec); }
    values := values.(recordCount := values.recordCount + 1);
    rec := OrderingHeaderRecord(values);
    assert Render(write, records + [rec]) == text + write(rec) by { RenderSnoc(write, records, rec); }
    records, text := records + [rec], text + write(rec);
    values := values.(recordCount := values.recordCount + 1);
  }

  /** The records of every receipt in order, with their text: for each one the
      required individual record and, with the domicile flag, the address
      record, each counted both as a record and as an ordering record. */
  method EmitReceipts(start: Values, write: Record -> string)
    returns (values: Values, records: seq<Record>, text: string)
    ensures records == Details(start, start.payment.receipts)
    ensures text == Render(write, records)
    ensures values == start.(recordCount := start.recordCount + |records|,
                             orderingRecords := start.orderingRecords + |records|)
  {
    records, text := [], [];
    var receipts := start.payment.receipts;
    var recordCount, orderingRecords := start.recordCount, start.orderingRecords;
    for i := 0 to |receipts|
      invariant records == Details(start, receipts[..i])
      invariant text == Render(write, records)
      invariant recordCount == start.recordCount + |records|
      invariant orderingRecords == start.orderingRecords + |records|
    {
      assert receipts[..i + 1][..i] == receipts[..i];
      values := start.(recordCount := recordCount, orderingRecords := orderingRecords);
      var rec := RequiredIndividualRecord(values, receipts[i]);
      assert Render(write, records + [rec]) == text + write(rec) by { RenderSnoc(write, records, rec); }
      records, text := records + [rec], text + write(rec);
      recordCount, orderingRecords := recordCount + 1, orderingRecords + 1;
      if values.includeDomicile {
        rec := AddressIndividualRecord(values, receipts[i]);
        assert Render(write, records + [rec]) == text + write(rec) by { RenderSnoc(write, records, rec); }
        records, text := records + [rec], text + write(rec);
        recordCount, orderingRecords := recordCount + 1, orderingRecords + 1;
      }
    }
    assert receipts[..|receipts|] == receipts;
    values := start.(recordCount := recordCount, orderingRecords := orderingRecords);
  }

  /** The ordering footer, built once the ordering record count is set to the
      detail records plus two, then the presenter footer, built after both
      footers are counted; `text0` is the text of `records0`. */
  method EmitFooters(start: Values, records0: seq<Record>, text0: string, write: Record -> string)
    returns (values: Values, records: seq<Record>, text: string)
    requires text0 == Render(write, records0)
    ensures values == start.(orderingRecordCount := start.orderingRecords + 2,
                             recordCount := start.recordCount + 2)
    ensures records == records0 + [OrderingFooterRecord(values)] + [PresenterFooterRecord(values)]
    ensures text == Render(write, records)
  {
    values := start.(orderingRecordCount := start.orderingRecords + 2);
    var rec := OrderingFooterRecord(values);
    assert Render(write, records0 + [rec]) == text0 + write(rec) by { RenderSnoc(write, records0, rec); }
    records, text := records0 + [rec], text0 + write(rec);
    values := values.(recordCount := values.recordCount + 2);
    rec := PresenterFooterRecord(values);
    assert Render(write, records + [rec]) == text + write(rec) by { RenderSnoc(write, records, rec); }
    records, text := records + [rec], text + write(rec);
  }

  /** The built file: the final values, the emitted records and their text. */
  datatype Remittance = Remittance(values: Values, records: seq<Record>, text: string)

  /** Emits the header pair, the records of every receipt in order and the
      footer pair, counting as it goes; `write` is the record encoder. */
  method EmitRecords(start: Values, write: Record -> string) returns (out: Remittance)
    ensures out.records == FileRecords(start)
    ensures out.values == Counted(start)
    ensures out.text == Render(write, out.records)
  {
    var values, records, text := EmitHeaders(start, write);
    var detailValues, details, detailText := EmitReceipts(values, write);
    assert details == Details(start, start.payment.receipts) by {
      DetailsIgnoreCounters(values, start, start.payment.receipts);
    }
    assert Render(write, records + details) == text + detailText by {
      RenderAppend(write, records, details);
    }
    records, text := records + details, text + detailText;
    values, records, text := EmitFooters(detailValues, records, text, write);
    assert values == Counted(start) by {
      DetailsLength(start, start.payment.receipts);
    }
    out := Remittance(values, records, text);
  }

  /** What processing a group yields: the preparation error, or the file built
      from the prepared values. */
  function Remit(group: PaymentValues, write: Record -> string): Result<Remittance, ConfigError>
  {
    match Prepare(group)
    case Failure(e) => Failure(e)
    case Success(v) => Success(Remittance(Counted(v), FileRecords(v), Render(write, FileRecords(v))))
  }

  /** The CSB 58 driver: prepares the values, then emits the whole file. A
      preparation error ends the run before any record is built. */
  method ProcessCsb58(group: PaymentValues, write: Record -> string)
    returns (r: Result<Remittance, ConfigError>)
    ensures r == Remit(group, write)
  {
    var prepared := SetDefaultCsb58PaymentValues(group);
    if prepared.Failure? {
      return Failure(prepared.error);
    }
    var out := EmitRecords(prepared.value, write);
    r := Success(out);
  }

  // ---------------------------------------------------------------------
  // Properties of the emitted file
  // ---------------------------------------------------------------------

  /** Without the domicile flag the detail records are one required
      individual record per receipt, in receipt order. */
  lemma {:induction false} DetailsWithoutDomicile(v: Values, rs: seq<Receipt>)
    requires !v.includeDomicile
    ensures |Details(v, rs)| == |rs|
    ensures forall i :: 0 <= i < |rs| ==> Details(v, rs)[i] == RequiredIndividualRecord(v, rs[i])
  {
    if rs != [] {
      var front, last := rs[..|rs| - 1], rs[|rs| - 1];
      DetailsWithoutDomicile(v, front);
      var d := Details(v, front);
      assert Details(v, rs) == d + [RequiredIndividualRecord(v, last)];
      forall i | 0 <= i < |rs|
        ensures Details(v, rs)[i] == RequiredIndividualRecord(v, rs[i])
      {
        if i < |front| {
          assert rs[i] == front[i];
          assert Details(v, rs)[i] == d[i];
        }
      }
    }
  }

  /** With the domicile flag each receipt contributes its required individual
      record immediately followed by its address record, in receipt order. */
  lemma {:induction false} DetailsWithDomicile(v: Values, rs: seq<Receipt>)
    requires v.includeDomicile
    ensures |Details(v, rs)| == 2 * |rs|
    ensures forall i :: 0 <= i < |rs| ==>
      Details(v, rs)[2 * i] == RequiredIndividualRecord(v, rs[i]) &&
      Details(v, rs)[2 * i + 1] == AddressIndividualRecord(v, rs[i])
  {
    if rs != [] {
      var front, last := rs[..|rs| - 1], rs[|rs| - 1];
      DetailsWithDomicile(v, front);
      var d := Details(v, front);
      assert Details(v, rs) == d + [RequiredIndividualRecord(v, last)] + [AddressIndividualRecord(v, last)];
      forall i | 0 <= i < |rs|
        ensures Details(v, rs)[2 * i] == RequiredIndividualRecord(v, rs[i])
        ensures Details(v, rs)[2 * i + 1] == AddressIndividualRecord(v, rs[i])
      {
        if i < |front| {
          assert rs[i] == front[i];
          assert Details(v, rs)[2 * i] == d[2 * i];
          assert Details(v, rs)[2 * i + 1] == d[2 * i + 1];
        }
      }
    }
  }

  /** Every detail record is an individual record with its kind's codes: a
      required individual record, or an address record when the domicile flag
      is set; the optional individual record never appears. */
  lemma {:induction false} DetailsKinds(v: Values, rs: seq<Receipt>)
    ensures forall j :: 0 <= j < |Details(v, rs)| ==>
      Coded(Details(v, rs)[j]) && IsIndividual(Details(v, rs)[j]) &&
      (Details(v, rs)[j].body.RequiredIndividual? ||
       (v.includeDomicile && Details(v, rs)[j].body.AddressIndividual?))
  {
    if rs != [] {
      DetailsKinds(v, rs[..|rs| - 1]);
    }
  }

  /** The file is the presenter header, the ordering header, the detail
      records, the ordering footer and the presenter footer. */
  lemma FileLayout(v: Values)
    ensures var recs := FileRecords(v); var n := |recs|;
      && n == |Details(v, v.payment.receipts)| + 4
      && recs[0] == PresenterHeaderRecord(v)
      && recs[1] == OrderingHeaderRecord(v)
      && recs[2..n - 2] == Details(v, v.payment.receipts)
      && recs[n - 2] == OrderingFooterRecord(Counted(v))
      && recs[n - 1] == PresenterFooterRecord(Counted(v))
  {
    var d := Details(v, v.payment.receipts);
    var final := Counted(v);
    var head := [PresenterHeaderRecord(v)] + [OrderingHeaderRecord(v)];
    var upToDetails := head + d;
    var upToFooter := upToDetails + [OrderingFooterRecord(final)];
    var recs := upToFooter + [PresenterFooterRecord(final)];
    assert recs == FileRecords(v);
    assert recs[0] == upToFooter[0] == upToDetails[0] == head[0];
    assert recs[1] == upToFooter[1] == upToDetails[1] == head[1];
    assert recs[|recs| - 2] == upToFooter[|recs| - 2];
    assert recs[2..|recs| - 2] == upToDetails[2..] == d;
  }

  /** Every record of the file carries its kind's codes; the individual
      records (code 56) are exactly the ones between the headers and the
      footers; the optional individual record is never emitted, and without
      the domicile flag no address record is. */
  lemma FileKinds(v: Values)
    ensures var recs := FileRecords(v); var n := |recs|;
      && (forall i :: 0 <= i < n ==> Coded(recs[i]))
      && (forall i :: 0 <= i < n ==> (IsIndividual(recs[i]) <==> 2 <= i < n - 2))
      && (forall i :: 0 <= i < n ==> !recs[i].body.OptionalIndividual?)
      && (!v.includeDomicile ==> forall i :: 0 <= i < n ==> !recs[i].body.AddressIndividual?)
  {
    var d := Details(v, v.payment.receipts);
    var recs := FileRecords(v);
    var n := |recs|;
    FileLayout(v);
    DetailsKinds(v, v.payment.receipts);
    forall i | 0 <= i < n
      ensures Coded(recs[i]) && (IsIndividual(recs[i]) <==> 2 <= i < n - 2)
      ensures !recs[i].body.OptionalIndividual?
      ensures !v.includeDomicile ==> !recs[i].body.AddressIndividual?
    {
      if i == 0 {
        assert recs[i] == PresenterHeaderRecord(v);
      } else if i == 1 {
        assert recs[i] == OrderingHeaderRecord(v);
      } else if i < n - 2 {
        assert recs[i] == recs[2..n - 2][i - 2] == d[i - 2];
      } else if i == n - 2 {
        assert recs[i] == OrderingFooterRecord(Counted(v));
      } else {
        assert recs[i] == PresenterFooterRecord(Counted(v));
      }
    }
  }

  /** The counters the footers report. The ordering record count is the
      detail-record counter plus two and is the ordering footer's record count;
      both footers report the same detail-record count and the same amount;
      the presenter footer's record count is the starting count plus every
      record of the file, footers included. */
  lemma FooterCounters(v: Values)
    ensures var recs := FileRecords(v); var n := |recs|;
      var final := Counted(v);
      && final.orderingRecordCount == final.orderingRecords + 2
      && final.orderingRecords == v.orderingRecords + (n - 4)
      && final.recordCount == v.recordCount + n
      && DecimalToNat(recs[n - 2].body.recordCount) == final.orderingRecordCount
      && DecimalToNat(recs[n - 2].body.paymentLineCount) == final.orderingRecords
      && recs[n - 2].body.paymentLineCount == recs[n - 1].body.paymentLineCount
      && recs[n - 2].body.amount == recs[n - 1].body.amount == v.payment.amount
      && recs[n - 1].body.orderingCount == "0001"
      && DecimalToNat(recs[n - 1].body.recordCount) == v.recordCount + n
  {
    FileLayout(v);
    DetailsLength(v, v.payment.receipts);
  }

  /** Processing a group fails exactly when some receipt lacks an address or
      part of it, with the error preparation reports; a failure carries no
      records and no text. */
  lemma ProcessFailure(group: PaymentValues, write: Record -> string)
    ensures Remit(group, write).Failure? <==>
      exists k :: 0 <= k < |group.receipts| && !HasCompleteAddress(group.receipts[k])
    ensures Remit(group, write).Failure? ==>
      Prepare(group).Failure? && Remit(group, write).error == Prepare(group).error
  {
    PrepareFailsOnFirstIncompleteReceipt(group);
  }

  /** A processed group's file has 2 + n * (2 with the domicile flag, else 1)
      + 2 records for n receipts; the final record count is that length, the
      detail-record counter is the length less the four header and footer
      records, and the ordering record count the length less the presenter
      pair, and the footers are built from those final values. */
  lemma ProcessCounts(group: PaymentValues, write: Record -> string)
    requires Remit(group, write).Success?
    ensures var out := Remit(group, write).value;
      var n := |group.receipts|;
      var recs := out.records;
      && |recs| == (if group.paymentJournal.csb58IncludeDomicile then 4 + 2 * n else 4 + n)
      && out.text == Render(write, recs)
      && out.values.recordCount == |recs|
      && out.values.orderingRecords == |recs| - 4
      && out.values.orderingRecordCount == |recs| - 2
      && recs[|recs| - 2] == OrderingFooterRecord(out.values)
      && recs[|recs| - 1] == PresenterFooterRecord(out.values)
  {
    var v := Prepare(group).value;
    PrepareSucceeds(group);
    FileLayout(v);
    if v.includeDomicile {
      DetailsWithDomicile(v, v.payment.receipts);
    } else {
      DetailsWithoutDomicile(v, v.payment.receipts);
    }
  }

  /** The detail records of the file follow the receipts in order: record
      2 + i is receipt i's required individual record, or, with the domicile
      flag, records 2 + 2i and 3 + 2i are its required individual and address
      records. */
  lemma FileDetails(v: Values)
    ensures var recs := FileRecords(v); var rs := v.payment.receipts;
      && (!v.includeDomicile ==>
            forall i :: 0 <= i < |rs| ==>
              2 + i < |recs| && recs[2 + i] == RequiredIndividualRecord(v, rs[i]))
      && (v.includeDomicile ==>
            forall i :: 0 <= i < |rs| ==>
              3 + 2 * i < |recs| &&
              recs[2 + 2 * i] == RequiredIndividualRecord(v, rs[i]) &&
              recs[3 + 2 * i] == AddressIndividualRecord(v, rs[i]))
  {
    FileLayout(v);
    var rs := v.payment.receipts;
    var recs := FileRecords(v);
    var d := Details(v, rs);
    if v.includeDomicile {
      DetailsWithDomicile(v, rs);
      forall i | 0 <= i < |rs|
        ensures 3 + 2 * i < |recs|
        ensures recs[2 + 2 * i] == RequiredIndividualRecord(v, rs[i])
        ensures recs[3 + 2 * i] == AddressIndividualRecord(v, rs[i])
      {
        assert recs[2 + 2 * i] == recs[2..|recs| - 2][2 * i] == d[2 * i];
        assert recs[3 + 2 * i] == recs[2..|recs| - 2][2 * i + 1] == d[2 * i + 1];
      }
    } else {
      DetailsWithoutDomicile(v, rs);
      forall i | 0 <= i < |rs|
        ensures 2 + i < |recs| && recs[2 + i] == RequiredIndividualRecord(v, rs[i])
      {
        assert recs[2 + i] == recs[2..|recs| - 2][i] == d[i];
      }
    }
  }

  /** A required individual record for the receipt: it carries the code of
      the receipt's party as reference. */
  predicate RequiredRecordOf(r: Record, receipt: Receipt)
  {
    r.body.RequiredIndividual? && r.body.reference == receipt.party.code
  }

  /** An address record for the receipt: it carries the code of the
      receipt's party as reference. */
  predicate AddressRecordOf(r: Record, receipt: Receipt)
  {
    r.body.AddressIndividual? && r.body.reference == receipt.party.code
  }

  /** Without the domicile flag, record 2 + i of a processed group's file is
      receipt i's required individual record, carrying that receipt's party
      code as reference. */
  lemma ProcessReferencesWithoutDomicile(group: PaymentValues, write: Record -> string)
    requires Remit(group, write).Success? && !group.paymentJournal.csb58IncludeDomicile
    ensures var recs := Remit(group, write).value.records;
      forall i :: 0 <= i < |group.receipts| ==>
        2 + i < |recs| && RequiredRecordOf(recs[2 + i], group.receipts[i])
  {
    var v := Prepare(group).value;
    PrepareSucceeds(group);
    FileDetails(v);
    var recs := Remit(group, write).value.records;
    assert recs == FileRecords(v);
    var rs := v.payment.receipts;
    forall i | 0 <= i < |group.receipts|
      ensures 2 + i < |recs| && RequiredRecordOf(recs[2 + i], group.receipts[i])
    {
      assert rs[i].reference == group.receipts[i].party.code;
      assert recs[2 + i] == RequiredIndividualRecord(v, rs[i]);
    }
  }

  /** With the domicile flag, records 2 + 2i and 3 + 2i of a processed
      group's file are receipt i's required individual and address records,
      both carrying that receipt's party code as reference. */
  lemma ProcessReferencesWithDomicile(group: PaymentValues, write: Record -> string)
    requires Remit(group, write).Success? && group.paymentJournal.csb58IncludeDomicile
    ensures var recs := Remit(group, write).value.records;
      forall i :: 0 <= i < |group.receipts| ==>
        3 + 2 * i < |recs| &&
        RequiredRecordOf(recs[2 + 2 * i], group.receipts[i]) &&
        AddressRecordOf(recs[3 + 2 * i], group.receipts[i])
  {
    var v := Prepare(group).value;
    PrepareSucceeds(group);
    FileDetails(v);
    var recs := Remit(group, write).value.records;
    assert recs == FileRecords(v);
    var rs := v.payment.receipts;
    forall i | 0 <= i < |group.receipts|
      ensures 3 + 2 * i < |recs|
      ensures RequiredRecordOf(recs[2 + 2 * i], group.receipts[i])
      ensures AddressRecordOf(recs[3 + 2 * i], group.receipts[i])
    {
      assert rs[i].reference == group.receipts[i].party.code;
      assert recs[2 + 2 * i] == RequiredIndividualRecord(v, rs[i]);
      assert recs[3 + 2 * i] == AddressIndividualRecord(v, rs[i]);
    }
  }
}
