/** Immutable invoices of paid orders (app/invoice/service.py, app/invoice/repository.py). */
module Invoices {
  import opened Options
  import opened Lifecycle
  import opened Schema
  import opened Decimals
  import opened InvoiceNumbers
  import opened Sessions
  import opened Payments

  predicate InvoiceFor(v: Invoice, biz: int, order: int) {
    v.biz == biz && v.order == order
  }

  ghost function FindInvoice(t: map<int, Invoice>, biz: int, order: int): (r: Option<int>)
    ensures r.Some? ==> r.value in t && InvoiceFor(t[r.value], biz, order)
    ensures r.None? ==> forall i | i in t :: !InvoiceFor(t[i], biz, order)
  {
    if exists i :: i in t && InvoiceFor(t[i], biz, order) then
      var i :| i in t && InvoiceFor(t[i], biz, order);
      Some(i)
    else None
  }

  lemma InvoiceFound(t: map<int, Invoice>, biz: int, order: int, i: int)
    requires InvoiceRules(t) && i in t && InvoiceFor(t[i], biz, order)
    ensures FindInvoice(t, biz, order) == Some(i)
  {
    var r := FindInvoice(t, biz, order);
    assert r.Some? && (r.value != i ==> InvoicesClash(t[r.value], t[i]));
  }

  /** `get_successful_for_order` */
  ghost function FindSuccess(t: map<int, Payment>, biz: int, order: int): (r: Option<int>)
    ensures r.Some? ==> r.value in t && SucceededFor(t[r.value], biz, order)
    ensures r.None? ==> forall i | i in t :: !SucceededFor(t[i], biz, order)
  {
    if exists i :: i in t && SucceededFor(t[i], biz, order) then
      var i :| i in t && SucceededFor(t[i], biz, order);
      Some(i)
    else None
  }

  lemma SuccessFound(t: map<int, Payment>, biz: int, order: int, i: int)
    requires PaymentRules(t) && i in t && SucceededFor(t[i], biz, order)
    ensures FindSuccess(t, biz, order) == Some(i)
  {
    var r := FindSuccess(t, biz, order);
    assert r.Some? && (r.value != i ==> PaymentsClash(t[r.value], t[i]));
  }

  // ----- what each operation does to the tables -----

  /** The value the counter upsert returns. */
  function NextSequence(counters: map<(int, nat), nat>, biz: int, year: nat): nat {
    if (biz, year) in counters then counters[(biz, year)] + 1 else 1
  }

  function InvoiceLines(lines: seq<Line>): seq<InvoiceLine> {
    seq(|lines|, i requires 0 <= i < |lines| => InvoiceLine(lines[i], lines[i].Total()))
  }

  /** The snapshot taken from the order, its customer, the business and the successful payment. */
  function Draft(db: DB, orderId: int, paid: Option<Payment>, year: nat, business: string,
                 currency: string, items: seq<InvoiceLine>): Invoice
    requires orderId in db.orders
  {
    var order := db.orders[orderId];
    var known := order.customer in db.customers && db.customers[order.customer].biz == order.biz;
    Invoice(order.biz, orderId,
            InvoiceNumber(year, NextSequence(db.counters, order.biz, year)), year,
            if paid.Some? then paid.value.currency else currency,
            order.total - order.tax, order.tax, order.total,
            if known then db.customers[order.customer].name else "",
            if known then db.customers[order.customer].phone else "",
            business,
            if paid.Some? then Some(paid.value.via) else None,
            if paid.Some? then paid.value.gatewayPayment else None,
            items, None)
  }

  function Issue(db: DB, id: int, v: Invoice, year: nat): DB {
    db.(invoices := db.invoices[id := v],
        counters := db.counters[(v.biz, year) := NextSequence(db.counters, v.biz, year)])
  }

  ghost function SuccessOf(db: DB, biz: int, order: int): Option<Payment> {
    match FindSuccess(db.payments, biz, order)
    case None => None
    case Some(i) => Some(db.payments[i])
  }

  /** What a generation that lost to another one answers. */
  ghost function Winner(db: DB, biz: int, order: int): Answer {
    match FindInvoice(db.invoices, biz, order)
    case Some(existing) => Ok(existing)
    case None => Err(Conflict)
  }

  ghost function SnapshotSpec(db: DB, biz: int, order: int, year: nat, business: string, currency: string,
                              id: int, fault: Fault): Outcome
    requires order in db.orders
  {
    var v := Draft(db, order, SuccessOf(db, biz, order), year, business, currency,
                   InvoiceLines(db.orders[order].lines));
    var next := Issue(db, id, v, year);
    if id in db.invoices || !Constraints(next) then
      Outcome(db, [], Winner(db, biz, order))
    else Finish(db, next, [], Ok(id), fault)
  }

  function PdfKey(biz: int, id: int): string {
    "invoices/" + Text(biz) + "/" + Text(id) + "/invoice.pdf"
  }

  /** Writes the PDF reference when rendering, storing and committing it all worked. */
  function AttachPdf(db: DB, id: int, url: Option<string>): DB
    requires id in db.invoices
  {
    if url.None? then db
    else
      var v := db.invoices[id];
      db.(invoices := db.invoices[id := v.(pdf := Some(Pdf(PdfKey(v.biz, id), url.value)))])
  }

  /** `generate`; `url` is where the PDF was stored, or none when that step failed. */
  ghost function GenerateSpec(db: DB, biz: int, order: int, year: nat, business: string, currency: string,
                              id: int, url: Option<string>, fault: Fault): Outcome
  {
    if !HasOrder(db, biz, order) then Refuse(db, NotFound)
    else if !InSales(db.orders[order].status) then Refuse(db, Conflict)
    else match FindInvoice(db.invoices, biz, order)
         case Some(existing) => Outcome(db, [], Ok(existing))
         case None =>
           var made := SnapshotSpec(db, biz, order, year, business, currency, id, fault);
           if made.answer.Ok? && made.answer.id in made.db.invoices
           then made.(db := AttachPdf(made.db, made.answer.id, url))
           else made
  }

  /** `get_pdf`: re-renders and stores the document when it is missing. */
  ghost function GetPdfSpec(db: DB, biz: int, id: int, stored: bool, url: Option<string>, fault: Fault): Outcome {
    if !HasInvoice(db, biz, id) then Refuse(db, NotFound)
    else if db.invoices[id].pdf.Some? && stored then Outcome(db, [], Ok(id))
    else if url.None? then Refuse(db, StorageError)
    else if fault == AtCommit then Outcome(db, [], Ok(id))
    else Outcome(AttachPdf(db, id, url), [], Ok(id))
  }

  lemma PdfKeepsRules(db: DB, id: int, url: Option<string>)
    requires Constraints(db) && id in db.invoices
    ensures Constraints(AttachPdf(db, id, url))
  {
    var next := AttachPdf(db, id, url);
    assert forall i | i in next.invoices :: next.invoices[i] == db.invoices[i].(pdf := next.invoices[i].pdf);
    forall i, j | i in next.invoices && j in next.invoices && i != j
      ensures !InvoicesClash(next.invoices[i], next.invoices[j])
    {
      assert !InvoicesClash(db.invoices[i], db.invoices[j]);
    }
  }

  lemma ShorterInvoiceKeepsRules(db: DB, id: int, v: Invoice, year: nat, items: seq<InvoiceLine>)
    requires Constraints(Issue(db, id, v, year))
    requires forall x | x in items :: x in v.items
    ensures Constraints(Issue(db, id, v.(items := items), year))
  {
    var full, part := Issue(db, id, v, year), Issue(db, id, v.(items := items), year);
    forall i, j | i in part.invoices && j in part.invoices && i != j
      ensures !InvoicesClash(part.invoices[i], part.invoices[j])
    {
      assert !InvoicesClash(full.invoices[i], full.invoices[j]);
    }
    forall i | i in part.invoices
      ensures part.invoices[i].total >= 0 && forall x | x in part.invoices[i].items :: x.line.quantity > 0
    {
      assert full.invoices[i].total >= 0 && forall x | x in full.invoices[i].items :: x.line.quantity > 0;
    }
  }

  // ----- the service -----

  class InvoiceService {
    const session: Session
    const currency: string

    constructor (session: Session, currency: string)
      ensures this.session == session && this.currency == currency
    {
      this.session, this.currency := session, currency;
    }

    method ByOrder(biz: int, order: int) returns (r: Option<int>)
      requires session.Clean()
      ensures r == FindInvoice(session.working.invoices, biz, order)
    {
      if i :| i in session.working.invoices && InvoiceFor(session.working.invoices[i], biz, order) {
        InvoiceFound(session.working.invoices, biz, order, i);
        r := Some(i);
      } else {
        r := None;
      }
    }

    method SuccessfulPayment(biz: int, order: int) returns (r: Option<Payment>)
      requires session.Clean()
      ensures r == SuccessOf(session.working, biz, order)
    {
      if i :| i in session.working.payments && SucceededFor(session.working.payments[i], biz, order) {
        SuccessFound(session.working.payments, biz, order, i);
        r := Some(session.working.payments[i]);
      } else {
        r := None;
      }
    }

    /** `next_sequence`: insert 1 or increment in place, inside the caller's transaction. */
    method NextInSequence(biz: int, year: nat) returns (value: nat)
      modifies session`working
      ensures value == NextSequence(old(session.working).counters, biz, year)
      ensures session.working
           == old(session.working).(counters := old(session.working).counters[(biz, year) := value])
    {
      value := NextSequence(session.working.counters, biz, year);
      session.working := session.working.(counters := session.working.counters[(biz, year) := value]);
    }

    method Generate(biz: int, order: int, year: nat, business: string, id: int, url: Option<string>, fault: Fault)
      returns (answer: Answer)
      requires session.Clean()
      modifies session
      ensures session.Clean()
      ensures var spec := GenerateSpec(old(session.committed), biz, order, year, business, currency, id, url, fault);
              session.committed == spec.db && answer == spec.answer && spec.events == []
    {
      if !HasOrder(session.working, biz, order) {
        return Err(NotFound);
      }
      if !InSales(session.working.orders[order].status) {
        return Err(Conflict);
      }
      var existing := ByOrder(biz, order);
      if existing.Some? {
        return Ok(existing.value);
      }
      answer := CreateSnapshot(biz, order, year, business, id, fault);
      if answer.Ok? {
        EnsurePdf(answer.id, url);
      }
    }

    /** `_create_snapshot` */
    method CreateSnapshot(biz: int, order: int, year: nat, business: string, id: int, fault: Fault)
      returns (answer: Answer)
      requires session.Clean() && HasOrder(session.working, biz, order)
      modifies session
      ensures session.Clean()
      ensures var spec := SnapshotSpec(old(session.committed), biz, order, year, business, currency, id, fault);
              session.committed == spec.db && answer == spec.answer && spec.events == []
      ensures answer.Ok? ==> answer.id in session.committed.invoices
    {
      ghost var db := session.working;
      var lines := session.working.orders[order].lines;
      var paid := SuccessfulPayment(biz, order);
      var shell := Draft(session.working, order, paid, year, business, currency, []);
      ghost var full := Draft(session.working, order, paid, year, business, currency, InvoiceLines(lines));
      var sequence := NextInSequence(biz, year);
      var taken := id in session.working.invoices;
      session.working := session.working.(invoices := session.working.invoices[id := shell]);
      assert session.working == Issue(db, id, shell, year);
      var sound := Flushes(db, id, shell, full, year);
      if taken || !sound {
        answer := ReturnWinner(biz, order);
      } else {
        InsertItems(db, id, shell, lines, year);
        assert session.working == Issue(db, id, full, year);
        answer := Settle(biz, order, id, fault);
      }
    }

    /** The commit of a fully staged invoice. */
    method Settle(biz: int, order: int, id: int, fault: Fault) returns (answer: Answer)
      requires session.Valid()
      modifies session
      ensures session.Clean()
      ensures var db := old(session.committed);
              var spec := if !Constraints(old(session.working))
                          then Outcome(db, [], Winner(db, biz, order))
                          else Finish(db, old(session.working), [], Ok(id), fault);
              session.committed == spec.db && answer == spec.answer
    {
      var error := session.Commit(fault);
      if error == Some(IntegrityError) {
        answer := ReturnWinner(biz, order);
      } else if error.Some? {
        session.Rollback();
        answer := Err(error.value);
      } else {
        var ok := session.Refresh(fault);
        answer := if ok then Ok(id) else Err(DatabaseError);
      }
    }

    /** The flush of the invoice row, before any item: it fails only when the whole insert must. */
    method Flushes(ghost db: DB, id: int, shell: Invoice, ghost full: Invoice, year: nat) returns (ok: bool)
      requires session.working == Issue(db, id, shell, year) && shell == full.(items := [])
      ensures ok == Constraints(session.working)
      ensures !ok ==> !Constraints(Issue(db, id, full, year))
    {
      ok := session.Flush();
      if Constraints(Issue(db, id, full, year)) {
        ShorterInvoiceKeepsRules(db, id, full, year, []);
      }
    }

    method InsertItems(ghost db: DB, id: int, shell: Invoice, lines: seq<Line>, year: nat)
      requires session.working == Issue(db, id, shell, year) && shell.items == []
      modifies session`working
      ensures session.working == Issue(db, id, shell.(items := InvoiceLines(lines)), year)
    {
      assert InvoiceLines(lines[..0]) == [];
      for i := 0 to |lines|
        invariant session.working == Issue(db, id, shell.(items := InvoiceLines(lines[..i])), year)
      {
        var v := session.working.invoices[id];
        session.working := session.working.(invoices :=
          session.working.invoices[id := v.(items := v.items + [InvoiceLine(lines[i], lines[i].Total())])]);
        assert InvoiceLines(lines[..i + 1]) == InvoiceLines(lines[..i]) + [InvoiceLine(lines[i], lines[i].Total())];
      }
      assert lines[..|lines|] == lines;
    }

    /** After a lost race: roll back and return the invoice that is there now. */
    method ReturnWinner(biz: int, order: int) returns (answer: Answer)
      requires Constraints(session.committed)
      modifies session`working
      ensures session.Clean()
      ensures answer == Winner(session.committed, biz, order)
    {
      session.Rollback();
      var existing := ByOrder(biz, order);
      answer := if existing.Some? then Ok(existing.value) else Err(Conflict);
    }

    /** `_ensure_pdf`: its own transaction; a failure leaves the invoice without a document. */
    method EnsurePdf(id: int, url: Option<string>)
      requires session.Clean() && id in session.working.invoices
      modifies session
      ensures session.Clean()
      ensures session.committed == AttachPdf(old(session.committed), id, url)
    {
      if url.None? {
        session.Rollback();
        return;
      }
      PdfKeepsRules(session.committed, id, url);
      var v := session.working.invoices[id];
      session.working := session.working.(invoices :=
        session.working.invoices[id := v.(pdf := Some(Pdf(PdfKey(v.biz, id), url.value)))]);
      var error := session.Commit(NoFault);
    }

    method GetPdf(biz: int, id: int, stored: bool, url: Option<string>, fault: Fault) returns (answer: Answer)
      requires session.Clean()
      modifies session
      ensures session.Clean()
      ensures var spec := GetPdfSpec(old(session.committed), biz, id, stored, url, fault);
              session.committed == spec.db && answer == spec.answer && spec.events == []
    {
      if !HasInvoice(session.working, biz, id) {
        return Err(NotFound);
      }
      var v := session.working.invoices[id];
      if v.pdf.Some? && stored {
        return Ok(id);
      }
      if url.None? {
        return Err(StorageError);
      }
      PdfKeepsRules(session.committed, id, url);
      session.working := session.working.(invoices :=
        session.working.invoices[id := v.(pdf := Some(Pdf(PdfKey(v.biz, id), url.value)))]);
      var error := session.Commit(fault);
      if error.Some? {
        session.Rollback();
      }
      answer := Ok(id);
    }
  }
}
