/**
 * The specification of the two transaction searches both clients run over a
 * block's transactions: the first transaction, in stored order, whose field
 * equals the key.
 */
module Lookup {
  import opened Response

  /** The field a search compares: `Hash` or `TransactionIndex`. */
  datatype Field = HashField | IndexField

  function KeyOf(t: Transaction, f: Field): string
  {
    match f
    case HashField => t.hash
    case IndexField => t.transactionIndex
  }

  /** The position of the first transaction whose field is `key`, or |txs| when there is none. */
  function FirstMatch(txs: seq<Transaction>, f: Field, key: string): (k: nat)
    ensures k <= |txs|
    ensures k < |txs| ==> KeyOf(txs[k], f) == key
    ensures forall j :: 0 <= j < k ==> KeyOf(txs[j], f) != key
  {
    if txs == [] then 0
    else if KeyOf(txs[0], f) == key then 0
    else 1 + FirstMatch(txs[1..], f, key)
  }

  /** The search finds something exactly when some transaction carries the key. */
  lemma {:induction false} FirstMatchFound(txs: seq<Transaction>, f: Field, key: string)
    ensures FirstMatch(txs, f, key) < |txs| <==> exists i :: 0 <= i < |txs| && KeyOf(txs[i], f) == key
  {
    if FirstMatch(txs, f, key) == |txs| {
      assert forall i :: 0 <= i < |txs| ==> KeyOf(txs[i], f) != key;
    }
  }

  /**
   * A position before which no transaction carries the key, and at which one
   * does (or the end of the list), is the position of the first match.
   */
  lemma FirstMatchAt(txs: seq<Transaction>, f: Field, key: string, i: nat)
    requires i <= |txs|
    requires i < |txs| ==> KeyOf(txs[i], f) == key
    requires forall j :: 0 <= j < i ==> KeyOf(txs[j], f) != key
    ensures FirstMatch(txs, f, key) == i
  {
  }
}
