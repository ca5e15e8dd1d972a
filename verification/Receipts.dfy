/** Offers, signed receipts and the bindings the gate compares them by. */
module Receipts {
  import opened JsText
  import opened Canonical
  import opened CanonicalUnique
  import KeyOrder

  /** The offer of one request together with the model it is paid by. */
  datatype Offer = Offer(model: Text, network: Text, resource: Text, amount: Text, asset: Text, payTo: Text)

  /** A signed receipt for a transaction settlement. */
  datatype Receipt = Receipt(id: Text, payer: Text, payee: Text, amount: Text, asset: Text, resource: Text,
                             model: Text, txHash: Text, network: Text, issuedAt: Text, signature: Text)

  function Field(name: string, value: Text): Property
    requires forall i :: 0 <= i < |name| ==> name[i] < '\U{0080}'
  {
    Property(Lit(name), Some(Str(value)))
  }

  function BindingOf(model: Text, network: Text, resource: Text, amount: Text, asset: Text, payee: Text): Json {
    Obj([Field("model", model), Field("network", network), Field("resource", resource),
         Field("amount", amount), Field("asset", asset), Field("payee", payee)])
  }

  function OfferJson(offer: Offer): Json {
    BindingOf(offer.model, offer.network, offer.resource, offer.amount, offer.asset, offer.payTo)
  }

  function ReceiptJson(receipt: Receipt): Json {
    BindingOf(receipt.model, receipt.network, receipt.resource, receipt.amount, receipt.asset, receipt.payee)
  }

  function OfferBinding(offer: Offer): Text {
    Print(OfferJson(offer))
  }

  function ReceiptBinding(receipt: Receipt): Text {
    Print(ReceiptJson(receipt))
  }

  /** A receipt was issued against an offer. */
  predicate Agrees(receipt: Receipt, offer: Offer) {
    && receipt.model == offer.model
    && receipt.network == offer.network
    && receipt.resource == offer.resource
    && receipt.amount == offer.amount
    && receipt.asset == offer.asset
    && receipt.payee == offer.payTo
  }

  /** An object whose properties are all strings. */
  predicate StringRecord(v: Json) {
    v.Obj? && forall i :: 0 <= i < |v.props| ==> v.props[i].value.Some? && v.props[i].value.value.Str?
  }

  lemma StringRecordGood(v: Json)
    requires StringRecord(v) && KeyOrder.Distinct(Keys(v.props))
    ensures Good(v)
  {
  }

  /** Objects of strings with the same keys print alike only when equal. */
  lemma StringRecordsUnambiguous(v: Json, w: Json)
    requires StringRecord(v) && StringRecord(w) && KeyOrder.Distinct(Keys(v.props))
    requires Keys(v.props) == Keys(w.props) && Print(v) == Print(w)
    ensures v == w
  {
    var p, q := v.props, w.props;
    StringRecordGood(v);
    StringRecordGood(w);
    CanonicalJsonUnambiguous(v, w);
    forall i | 0 <= i < |p| ensures p[i] == q[i] {
      assert Keys(p)[i] == Keys(q)[i];
      assert Equiv(p[i].value.value, q[i].value.value);
    }
    assert p == q;
  }

  lemma BindingKeysDistinct(keys: seq<Text>)
    requires keys == [Lit("model"), Lit("network"), Lit("resource"), Lit("amount"), Lit("asset"), Lit("payee")]
    ensures KeyOrder.Distinct(keys)
  {
    assert |keys[1]| == 7 && |keys[2]| == 8 && |keys[3]| == 6;
    assert keys[0][0] == 109 && keys[4][0] == 97 && keys[5][0] == 112;
    assert |keys[0]| == |keys[4]| == |keys[5]| == 5;
  }

  lemma BindingKeys(v: Json, a: Text, b: Text, c: Text, d: Text, e: Text, f: Text)
    requires v == BindingOf(a, b, c, d, e, f)
    ensures StringRecord(v)
    ensures Keys(v.props) == [Lit("model"), Lit("network"), Lit("resource"), Lit("amount"), Lit("asset"), Lit("payee")]
  {
  }

  lemma SameJsonSameFields(receipt: Receipt, offer: Offer)
    ensures ReceiptJson(receipt) == OfferJson(offer) <==> Agrees(receipt, offer)
  {
    if ReceiptJson(receipt) == OfferJson(offer) {
      var p, q := ReceiptJson(receipt).props, OfferJson(offer).props;
      assert p[0] == q[0] && p[1] == q[1] && p[2] == q[2] && p[3] == q[3] && p[4] == q[4] && p[5] == q[5];
    }
  }

  lemma BindingsAreRecords(v: Json, w: Json, receipt: Receipt, offer: Offer)
    requires v == ReceiptJson(receipt) && w == OfferJson(offer)
    ensures StringRecord(v) && StringRecord(w) && KeyOrder.Distinct(Keys(v.props)) && Keys(v.props) == Keys(w.props)
  {
    BindingKeys(v, receipt.model, receipt.network, receipt.resource, receipt.amount, receipt.asset, receipt.payee);
    BindingKeys(w, offer.model, offer.network, offer.resource, offer.amount, offer.asset, offer.payTo);
    BindingKeysDistinct(Keys(v.props));
  }

  /** Comparing the printed bindings compares the six fields, nothing more and
      nothing less. */
  lemma BindingsCompareFields(receipt: Receipt, offer: Offer)
    ensures ReceiptBinding(receipt) == OfferBinding(offer) <==> Agrees(receipt, offer)
  {
    SameJsonSameFields(receipt, offer);
    if ReceiptBinding(receipt) == OfferBinding(offer) {
      BindingsAreRecords(ReceiptJson(receipt), OfferJson(offer), receipt, offer);
      StringRecordsUnambiguous(ReceiptJson(receipt), OfferJson(offer));
    }
  }
}
