/** src/repositories/payment.repository.ts: the payments table, here an
    in-memory map from payment id to record. Each operation takes the
    store's answer for that call: `fault` is Some(detail) when the store
    fails, and the operation then rethrows it unchanged. */
module Repository {
  import opened Wrappers
  import opened Strings
  import opened PaymentTypes

  /** A call the repository received, in order (what the tests' mocks record). */
  datatype Call =
    | GetCall(paymentId: string)
    | PutCall(payment: Payment)
    | ScanAllCall
    | ScanCurrencyCall(currency: string)

  /** Whether a scan with the given filter keeps a record. */
  predicate Keeps(p: Payment, filter: Option<string>) {
    filter.None? || p.currency == filter.value
  }

  /** `ps` is a scan of `table`: each kept record once, in some order, and
      nothing else. */
  predicate IsScanOf(ps: seq<Payment>, table: map<string, Payment>, filter: Option<string>) {
    && (forall i, j :: 0 <= i < j < |ps| ==> ps[i].paymentId != ps[j].paymentId)
    && (forall i :: 0 <= i < |ps| ==> ps[i].paymentId in table && table[ps[i].paymentId] == ps[i] && Keeps(ps[i], filter))
    && (forall id :: id in table && Keeps(table[id], filter) ==> table[id] in ps)
  }

  class PaymentRepository {
    /** The table: each record stored under its own id. */
    var table: map<string, Payment>
    /** Every call received so far. */
    ghost var calls: seq<Call>

    ghost predicate Valid()
      reads this
    {
      forall id :: id in table ==> table[id].paymentId == id
    }

    constructor ()
      ensures Valid() && table == map[] && calls == []
    {
      table := map[];
      calls := [];
    }

    /** `getById`: the record stored under the id, or null. */
    method GetById(paymentId: string, fault: Option<string>) returns (r: Outcome<Option<Payment>>)
      requires Valid()
      modifies this`calls
      ensures calls == old(calls) + [GetCall(paymentId)]
      ensures fault.Some? ==> r == Threw(fault.value)
      ensures fault.None? ==> r.Returned?
      ensures fault.None? ==> (r.value.Some? <==> paymentId in table)
      ensures fault.None? && r.value.Some? ==> r.value.value == table[paymentId] && r.value.value.paymentId == paymentId
    {
      calls := calls + [GetCall(paymentId)];
      if fault.Some? {
        return Threw(fault.value);
      }
      if paymentId in table {
        return Returned(Some(table[paymentId]));
      }
      return Returned(None);
    }

    /** `create`: a put under the record's id, replacing any earlier record
      with that id; nothing else changes. */
    method Create(payment: Payment, fault: Option<string>) returns (r: Outcome<()>)
      requires Valid()
      modifies this
      ensures Valid()
      ensures calls == old(calls) + [PutCall(payment)]
      ensures fault.Some? ==> r == Threw(fault.value) && table == old(table)
      ensures fault.None? ==> r.Returned? && table == old(table)[payment.paymentId := payment]
    {
      calls := calls + [PutCall(payment)];
      if fault.Some? {
        return Threw(fault.value);
      }
      table := table[payment.paymentId := payment];
      return Returned(());
    }

    /** `listAll`: every stored record. */
    method ListAll(fault: Option<string>) returns (r: Outcome<seq<Payment>>)
      requires Valid()
      modifies this`calls
      ensures calls == old(calls) + [ScanAllCall]
      ensures fault.Some? ==> r == Threw(fault.value)
      ensures fault.None? ==> r.Returned? && IsScanOf(r.value, table, None)
    {
      calls := calls + [ScanAllCall];
      if fault.Some? {
        return Threw(fault.value);
      }
      var ps := Scan(None);
      return Returned(ps);
    }

    /** `listByCurrency`: the stored records whose currency equals the
      upper-cased argument. */
    method ListByCurrency(currency: string, fault: Option<string>) returns (r: Outcome<seq<Payment>>)
      requires Valid()
      modifies this`calls
      ensures calls == old(calls) + [ScanCurrencyCall(currency)]
      ensures fault.Some? ==> r == Threw(fault.value)
      ensures fault.None? ==> r.Returned? && IsScanOf(r.value, table, Some(ToUpper(currency)))
    {
      calls := calls + [ScanCurrencyCall(currency)];
      if fault.Some? {
        return Threw(fault.value);
      }
      var normalised := ToUpper(currency);
      var ps := Scan(Some(normalised));
      return Returned(ps);
    }

    /** A scan of the table, keeping the records the filter admits; the
      order in which the store visits the records is left open. */
    method Scan(filter: Option<string>) returns (ps: seq<Payment>)
      requires Valid()
      ensures IsScanOf(ps, table, filter)
    {
      var remaining := table.Keys;
      ps := [];
      while remaining != {}
        invariant remaining <= table.Keys
        invariant forall i, j :: 0 <= i < j < |ps| ==> ps[i].paymentId != ps[j].paymentId
        invariant forall i :: 0 <= i < |ps| ==> ps[i].paymentId !in remaining
        invariant forall i :: 0 <= i < |ps| ==> ps[i].paymentId in table && table[ps[i].paymentId] == ps[i] && Keeps(ps[i], filter)
        invariant forall id :: id in table.Keys - remaining && Keeps(table[id], filter) ==> table[id] in ps
        decreases remaining
      {
        var id :| id in remaining;
        var p := table[id];
        if Keeps(p, filter) {
          ps := ps + [p];
        }
        remaining := remaining - {id};
      }
    }
  }

  /** Membership in a scan, both ways: a record is listed exactly when it
      is stored under its id and the filter keeps it. */
  lemma ScanMembership(ps: seq<Payment>, table: map<string, Payment>, filter: Option<string>, p: Payment)
    requires IsScanOf(ps, table, filter)
    ensures p in ps <==> p.paymentId in table && table[p.paymentId] == p && Keeps(p, filter)
  {
    if p in ps {
      var i :| 0 <= i < |ps| && ps[i] == p;
    }
  }

  /** A scan without a filter lists every stored record, and an empty table
      lists nothing. */
  lemma ScanAllIsEveryRecord(ps: seq<Payment>, table: map<string, Payment>)
    requires IsScanOf(ps, table, None)
    ensures forall id :: id in table ==> table[id] in ps
    ensures table == map[] ==> ps == []
  {
    if ps != [] {
      assert ps[0].paymentId in table;
    }
  }

  /** A filtered scan lists only records of that currency, and all of them. */
  lemma ScanByCurrency(ps: seq<Payment>, table: map<string, Payment>, currency: string)
    requires IsScanOf(ps, table, Some(currency))
    ensures forall i :: 0 <= i < |ps| ==> ps[i].currency == currency
    ensures forall id :: id in table && table[id].currency == currency ==> table[id] in ps
  {
  }
}
