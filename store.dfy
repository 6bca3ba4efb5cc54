/**
 * The persistent store, reached through a narrow interface: append a
 * record, read back the last index of a stream. Its own idempotency on
 * `index` is not part of this model; the last index is taken to be the
 * largest index stored (0 for an empty stream).
 */
module Store {
  import opened Numbers
  import opened Records

  /** The largest index among the records, 0 when there are none. */
  function MaxIndex(rs: seq<BoostRecord>): (m: u64)
    ensures forall k :: 0 <= k < |rs| ==> rs[k].index <= m
    ensures rs != [] ==> exists k :: 0 <= k < |rs| && rs[k].index == m
    ensures rs == [] ==> m == 0
  {
    if rs == [] then 0
    else
      var m := MaxIndex(rs[..|rs| - 1]);
      var last := rs[|rs| - 1].index;
      if last > m then last else m
  }

  /** Appending records moves the last index to the larger of the two. */
  lemma {:induction false} MaxIndexAppend(rs: seq<BoostRecord>, more: seq<BoostRecord>)
    ensures MaxIndex(rs + more) == if MaxIndex(rs) >= MaxIndex(more) then MaxIndex(rs) else MaxIndex(more)
  {
    if more != [] {
      assert (rs + more)[..|rs + more| - 1] == rs + more[..|more| - 1];
      MaxIndexAppend(rs, more[..|more| - 1]);
    } else {
      assert rs + more == rs;
    }
  }

  class Store {
    var invoices: seq<BoostRecord>
    var payments: seq<BoostRecord>
    var balances: seq<i64>
    var sentBoosts: seq<SentBoostRecord>

    constructor ()
      ensures invoices == [] && payments == [] && balances == [] && sentBoosts == []
    {
      invoices, payments, balances, sentBoosts := [], [], [], [];
    }

    /** `add_invoice_to_db`. */
    method AddInvoice(b: BoostRecord)
      modifies this
      ensures invoices == old(invoices) + [b]
      ensures payments == old(payments) && balances == old(balances) && sentBoosts == old(sentBoosts)
    {
      invoices := invoices + [b];
    }

    /** `add_payment_to_db`. */
    method AddPayment(b: BoostRecord)
      modifies this
      ensures payments == old(payments) + [b]
      ensures invoices == old(invoices) && balances == old(balances) && sentBoosts == old(sentBoosts)
    {
      payments := payments + [b];
    }

    /** `add_wallet_balance_to_db`. */
    method AddWalletBalance(sat: i64)
      modifies this
      ensures balances == old(balances) + [sat]
      ensures invoices == old(invoices) && payments == old(payments) && sentBoosts == old(sentBoosts)
    {
      balances := balances + [sat];
    }

    /** `add_sent_boost_to_db`. */
    method AddSentBoost(b: SentBoostRecord)
      modifies this
      ensures sentBoosts == old(sentBoosts) + [b]
      ensures invoices == old(invoices) && payments == old(payments) && balances == old(balances)
    {
      sentBoosts := sentBoosts + [b];
    }

    /** `get_last_boost_index_from_db`: no stored invoice lies above it. */
    method LastBoostIndex() returns (i: u64)
      ensures forall k :: 0 <= k < |invoices| ==> invoices[k].index <= i
      ensures invoices != [] ==> exists k :: 0 <= k < |invoices| && invoices[k].index == i
      ensures invoices == [] ==> i == 0
      ensures i == MaxIndex(invoices)
    {
      i := MaxIndex(invoices);
    }

    /** `get_last_payment_index_from_db`: no stored payment lies above it. */
    method LastPaymentIndex() returns (i: u64)
      ensures forall k :: 0 <= k < |payments| ==> payments[k].index <= i
      ensures payments != [] ==> exists k :: 0 <= k < |payments| && payments[k].index == i
      ensures payments == [] ==> i == 0
      ensures i == MaxIndex(payments)
    {
      i := MaxIndex(payments);
    }
  }
}
