/** src/services/payment.service.ts: builds payment records and chooses the
    repository call for a listing. It catches nothing: a repository failure
    reaches the caller unchanged. */
module Service {
  import opened Wrappers
  import opened JsonValues
  import Strings
  import opened PaymentTypes
  import opened Schemas
  import opened Repository

  /** The record `createPayment` builds: the fresh id with the input's
      amount and currency unchanged. */
  function NewPayment(input: PaymentInput, newId: string): (p: Payment)
    ensures p.paymentId == newId && p.amount == input.amount && p.currency == input.currency
  {
    Payment(newId, input.amount, input.currency)
  }

  /** `!currencyFilter`: no filter, or the empty string. */
  predicate NoFilter(filter: Option<string>) {
    filter.None? || filter.value == ""
  }

  class PaymentService {
    const repository: PaymentRepository

    constructor (repository: PaymentRepository)
      ensures this.repository == repository
    {
      this.repository := repository;
    }

    /** `createPayment`: one put of the new record, which is then returned.
      `newId` is the value `uuidv4()` produced for this call. */
    method CreatePayment(input: PaymentInput, newId: string, fault: Option<string>) returns (r: Outcome<Payment>)
      requires repository.Valid()
      modifies repository
      ensures repository.Valid()
      ensures repository.calls == old(repository.calls) + [PutCall(NewPayment(input, newId))]
      ensures fault.Some? ==> r == Threw(fault.value) && repository.table == old(repository.table)
      ensures fault.None? ==> r == Returned(NewPayment(input, newId))
      ensures fault.None? ==> repository.table == old(repository.table)[newId := NewPayment(input, newId)]
    {
      var payment := NewPayment(input, newId);
      var stored := repository.Create(payment, fault);
      if stored.Threw? {
        return Threw(stored.detail);
      }
      return Returned(payment);
    }

    /** `getPaymentById`: the repository's answer, null included. */
    method GetPaymentById(paymentId: string, fault: Option<string>) returns (r: Outcome<Option<Payment>>)
      requires repository.Valid()
      modifies repository`calls
      ensures repository.calls == old(repository.calls) + [GetCall(paymentId)]
      ensures fault.Some? ==> r == Threw(fault.value)
      ensures fault.None? ==> r == Returned(Member(repository.table, paymentId))
    {
      r := repository.GetById(paymentId, fault);
    }

    /** `listPayments`: `listAll` when there is no filter or it is empty,
      otherwise `listByCurrency` with the filter as given. */
    method ListPayments(filter: Option<string>, fault: Option<string>) returns (r: Outcome<seq<Payment>>)
      requires repository.Valid()
      modifies repository`calls
      ensures NoFilter(filter) ==> repository.calls == old(repository.calls) + [ScanAllCall]
      ensures !NoFilter(filter) ==> repository.calls == old(repository.calls) + [ScanCurrencyCall(filter.value)]
      ensures fault.Some? ==> r == Threw(fault.value)
      ensures fault.None? ==> r.Returned? && IsScanOf(r.value, repository.table, ScanFilter(filter))
    {
      if filter.None? || filter.value == "" {
        r := repository.ListAll(fault);
      } else {
        r := repository.ListByCurrency(filter.value, fault);
      }
    }
  }

  /** The filter the store applies for a `listPayments` filter. */
  function ScanFilter(filter: Option<string>): (r: Option<string>)
    ensures r.None? <==> NoFilter(filter)
    ensures r.Some? ==> r.value == Strings.ToUpper(filter.value)
  {
    if NoFilter(filter) then None else Some(Strings.ToUpper(filter.value))
  }

  /** A record that `createPayment` put can be read back by its id through
      `getPaymentById`, and every other id reads as it did before. */
  method CreatedIsReadable(service: PaymentService, input: PaymentInput, newId: string, other: string)
    returns (created: Outcome<Payment>, read: Outcome<Option<Payment>>, readOther: Outcome<Option<Payment>>)
    requires service.repository.Valid() && other != newId
    modifies service.repository
    ensures created == Returned(NewPayment(input, newId))
    ensures read == Returned(Some(NewPayment(input, newId)))
    ensures readOther == Returned(Member(old(service.repository.table), other))
  {
    created := service.CreatePayment(input, newId, None);
    read := service.GetPaymentById(newId, None);
    readOther := service.GetPaymentById(other, None);
  }

  /** An already normalised filter reaches the store unchanged. */
  lemma NormalFilterUnchanged(c: string)
    requires IsNormalCurrency(c)
    ensures ScanFilter(Some(c)) == Some(c)
  {
    Strings.TrimIsTrimmed(c);
    Strings.ToUpperIdempotent(Strings.Trim(c));
  }
}
