/** A payment as the flat string mapping a stream entry holds. */
module PaymentFields {
  import opened Basics
  import opened Decimal
  import DlqModel

  type Fields = map<string, string>

  datatype Error = MissingField(name: string) | BadAmount(text: string)

  datatype Result<T> = Ok(value: T) | Err(error: Error)

  const ID := "payment_id"
  const AMOUNT := "amount_cents"
  const CUSTOMER := "customer_id"
  const CURRENCY := "currency"

  function ToFields(p: DlqModel.Payment): Fields {
    map[ID := p.paymentId, AMOUNT := ToText(p.amountCents), CUSTOMER := p.customerId, CURRENCY := p.currency]
  }

  /** Fields are read in the order the constructor names them, so the first missing one is reported. */
  function FromFields(f: Fields): Result<DlqModel.Payment> {
    if ID !in f then Err(MissingField(ID))
    else if AMOUNT !in f then Err(MissingField(AMOUNT))
    else if FromText(f[AMOUNT]).None? then Err(BadAmount(f[AMOUNT]))
    else if CUSTOMER !in f then Err(MissingField(CUSTOMER))
    else if CURRENCY !in f then Err(MissingField(CURRENCY))
    else Ok(DlqModel.Payment(f[ID], FromText(f[AMOUNT]).value, f[CUSTOMER], f[CURRENCY]))
  }

  /** Any payment, negative amounts included, survives the stream, whatever other fields the entry carries. */
  lemma PaymentRoundTrip(p: DlqModel.Payment, others: Fields)
    requires others.Keys !! ToFields(p).Keys
    ensures FromFields(ToFields(p) + others) == Ok(p)
  {
    TextRoundTrip(p.amountCents);
    hide ToText, FromText;
  }

  /** The names the fields have on the wire. */
  lemma FieldsOnTheWire(p: DlqModel.Payment)
    ensures ToFields(p)
         == map["payment_id" := p.paymentId, "amount_cents" := ToText(p.amountCents),
                "customer_id" := p.customerId, "currency" := p.currency]
  {
    assert |ID| == 10 && |AMOUNT| == 12 && |CUSTOMER| == 11 && |CURRENCY| == 8;
  }

  /** What reading an entry looks at, in order: the name of a field, and whether its text has to be an integer. */
  const LOOKUPS := [("payment_id", false), ("amount_cents", true), ("customer_id", false), ("currency", false)]

  /** The first `n` lookups succeed. */
  ghost predicate Reads(f: Fields, n: nat)
    requires n <= |LOOKUPS|
  {
    forall i :: 0 <= i < n ==> LOOKUPS[i].0 in f && (LOOKUPS[i].1 ==> FromText(f[LOOKUPS[i].0]).Some?)
  }

  /** An entry decodes exactly when every lookup succeeds, and otherwise the first that does not is the error. */
  lemma FailsAtTheFirst(f: Fields)
    ensures FromFields(f).Ok? <==> Reads(f, 4)
    ensures FromFields(f).Err? ==>
              exists i: nat :: i < 4 && Reads(f, i) && !Reads(f, i + 1)
                && FromFields(f).error == if LOOKUPS[i].0 !in f then MissingField(LOOKUPS[i].0)
                                          else BadAmount(f[LOOKUPS[i].0])
  {
    hide FromText;
    assert Reads(f, 0);
    ReadsNext(f, 0);
    ReadsNext(f, 1);
    ReadsNext(f, 2);
    ReadsNext(f, 3);
    hide Reads;
    if FromFields(f).Err? {
      var i: nat := if !Reads(f, 1) then 0 else if !Reads(f, 2) then 1 else if !Reads(f, 3) then 2 else 3;
      assert Reads(f, i) && !Reads(f, i + 1);
    }
  }

  lemma ReadsNext(f: Fields, n: nat)
    requires n < |LOOKUPS|
    ensures Reads(f, n + 1)
            <==> Reads(f, n) && LOOKUPS[n].0 in f && (LOOKUPS[n].1 ==> FromText(f[LOOKUPS[n].0]).Some?)
  {
  }

  /** Written back, an entry's four fields are unchanged exactly when its amount was in canonical form. */
  lemma WritesBackIffCanonicalAmount(f: Fields)
    requires FromFields(f).Ok?
    ensures ToFields(FromFields(f).value).Items <= f.Items <==> Canonical(f[AMOUNT])
  {
    var g := ToFields(FromFields(f).value);
    WritesBackIffCanonical(f[AMOUNT]);
    hide ToText, FromText, Canonical;
    assert (AMOUNT, g[AMOUNT]) in g.Items;
    assert (AMOUNT, f[AMOUNT]) in f.Items;
    if g[AMOUNT] == f[AMOUNT] {
      forall kv | kv in g.Items ensures kv in f.Items {
        assert kv.0 in f && f[kv.0] == kv.1;
      }
    }
  }
}
