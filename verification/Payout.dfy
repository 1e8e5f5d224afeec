/** The money path: the payment provider as a ledger that replays a repeated key,
    and the retried handler that pays through it. */
module Payout {
  import opened Domain
  import opened Approvals
  import opened Sums

  datatype Transfer = Transfer(wallet: string, payee: string, amount: int)

  /** `seen` maps each idempotency key to the transfer it broadcast; `debits` is what
      has left each wallet. */
  datatype Ledger = Ledger(seen: map<string, Transfer>, debits: map<string, int>)

  function Broadcast(l: Ledger, key: string, t: Transfer): Ledger {
    if key in l.seen then l else Ledger(l.seen[key := t], l.debits[t.wallet := ValueAt(l.debits, t.wallet) + t.amount])
  }

  /** Where a running payout handler stands; the next statement is named first.
      `inv` is the handler's own copy of the row. */
  datatype Phase =
    | NeedsTreasury(inv: Invoice)
    | NeedsSend(inv: Invoice, wallet: string)
    | NeedsMark
    | Returned(ok: bool)

  function ReadInvoice(invoices: map<Id, Invoice>, id: Id): Phase {
    if id !in invoices then Returned(false)
    else
      var inv := invoices[id];
      if inv.status !in {Approved, Scheduled, Failed} then Returned(true)
      else if inv.payee.None? || inv.payee.value == "" then Returned(false)
      else NeedsTreasury(inv)
  }

  function ReadTreasury(rules: map<Id, Rules>, inv: Invoice, demo: bool): Phase {
    if inv.org !in rules || rules[inv.org].treasury.None? then Returned(false)
    else if demo then NeedsMark
    else NeedsSend(inv, rules[inv.org].treasury.value)
  }

  function TransferFor(inv: Invoice, wallet: string): Transfer {
    Transfer(wallet, inv.payee.GetOr(""), inv.amount)
  }

  function MarkPaid(invoices: map<Id, Invoice>, id: Id): map<Id, Invoice> {
    if id in invoices then invoices[id := invoices[id].(status := Paid)] else invoices
  }

  /** What a sender learns is an answer or a failure. A failed request was refused,
      arrived unheard, or is still on its way. */
  datatype Answer = Answered | Refused | Arrived | OnItsWay

  /** Statuses in which a payout goes ahead. */
  predicate Awaiting(status: InvoiceStatus) {
    status == Approved || status == Scheduled || status == Failed
  }

  /** Everything a payout needs is there. Otherwise the handler moves nothing; it fails,
      to be retried, unless the invoice is settled, rejected or not decided yet. */
  ghost predicate Ready(invoices: map<Id, Invoice>, rules: map<Id, Rules>, id: Id) {
    && id in invoices && Awaiting(invoices[id].status)
    && invoices[id].payee.Some? && invoices[id].payee.value != ""
    && invoices[id].org in rules && rules[invoices[id].org].treasury.Some?
  }

  class Payouts {
    const store: Store
    var ledger: Ledger
    const demo: bool

    constructor (store: Store, demo: bool)
      ensures this.store == store && this.demo == demo && ledger == Ledger(map[], map[])
    {
      this.store := store;
      this.demo := demo;
      ledger := Ledger(map[], map[]);
    }

    method SendTransaction(key: string, t: Transfer, answer: Answer) returns (ok: bool)
      modifies this`ledger
      ensures ledger == if answer.Answered? || answer.Arrived? then Broadcast(old(ledger), key, t) else old(ledger)
      ensures ok <==> answer.Answered?
    {
      if answer.Refused? || answer.OnItsWay? {
        return false;
      }
      if key !in ledger.seen {
        var debit := ValueAt(ledger.debits, t.wallet) + t.amount;
        ledger := Ledger(ledger.seen[key := t], ledger.debits[t.wallet := debit]);
      }
      ok := answer.Answered?;
    }

    method MarkInvoicePaid(id: Id)
      modifies store`invoices
      ensures store.invoices == MarkPaid(old(store.invoices), id)
    {
      if id in store.invoices {
        store.invoices := store.invoices[id := store.invoices[id].(status := Paid)];
      }
    }

    /** The handler when nothing runs between its statements. `audited` says whether
        the closing audit write went through. */
    method HandlePayout(id: Id, answer: Answer, audited: bool) returns (ok: bool)
      modifies this`ledger, store`invoices
      ensures match ReadInvoice(old(store.invoices), id)
              case NeedsTreasury(inv) =>
                (match ReadTreasury(store.rules, inv, demo)
                 case NeedsSend(_, wallet) =>
                   && ledger == (if answer.Answered? || answer.Arrived?
                                 then Broadcast(old(ledger), PayoutKey(id), TransferFor(inv, wallet)) else old(ledger))
                   && store.invoices == (if answer.Answered? then MarkPaid(old(store.invoices), id)
                                         else old(store.invoices))
                   && ok == (answer.Answered? && audited)
                 case NeedsMark =>
                   ledger == old(ledger) && store.invoices == MarkPaid(old(store.invoices), id) && ok == audited
                 case Returned(done) =>
                   ledger == old(ledger) && store.invoices == old(store.invoices) && ok == done
                 case NeedsTreasury(_) => false)
              case Returned(done) => ledger == old(ledger) && store.invoices == old(store.invoices) && ok == done
              case _ => false
      ensures if !Ready(old(store.invoices), store.rules, id) then
                && ledger == old(ledger) && store.invoices == old(store.invoices)
                && (ok <==> id in old(store.invoices) && !Awaiting(old(store.invoices)[id].status))
              else
                var inv := old(store.invoices)[id];
                var t := Transfer(store.rules[inv.org].treasury.value, inv.payee.value, inv.amount);
                && ledger == (if !demo && (answer.Answered? || answer.Arrived?)
                              then Broadcast(old(ledger), "payout:" + id, t) else old(ledger))
                && store.invoices == old(store.invoices)[id := inv.(status :=
                     if demo || answer.Answered? then Paid else inv.status)]
                && (ok <==> (demo || answer.Answered?) && audited)
    {
      if id !in store.invoices {
        return false;
      }
      var inv := store.invoices[id];
      match inv.status {
        case Paid => return true;
        case Approved | Scheduled | Failed =>
        case _ => return true;
      }

      if inv.payee.None? || inv.payee.value == "" {
        return false;
      }

      if inv.org !in store.rules {
        return false;
      }
      var org := store.rules[inv.org];
      if org.treasury.None? {
        return false;
      }

      if demo {
        MarkInvoicePaid(id);
        return audited;
      }

      var sent := SendTransaction(PayoutKey(id), TransferFor(inv, org.treasury.value), answer);
      if !sent {
        return false;
      }
      MarkInvoicePaid(id);
      return audited;
    }
  }
}
