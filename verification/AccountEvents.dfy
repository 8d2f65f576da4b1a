/** The events of an account and their flat string form. */
module AccountEvents {

  type Fields = map<string, string>

  datatype Event =
    | AccountCreated(accountId: string, ownerId: string)
    | MoneyDeposited(accountId: string, amount: string)
    | MoneyWithdrawn(accountId: string, amount: string)

  datatype Error =
    | AlreadyCreated | NotCreated | AmountNotPositive | InsufficientFunds
    | UnknownEventType(name: string) | MissingField(name: string) | BadAmount(text: string)

  datatype Result<T> = Ok(value: T) | Err(error: Error)

  const TYPE := "event_type"
  const ACCOUNT := "account_id"
  const OWNER := "owner_id"
  const AMOUNT := "amount"

  const CREATED := "AccountCreated"
  const DEPOSITED := "MoneyDeposited"
  const WITHDRAWN := "MoneyWithdrawn"

  function TypeOf(e: Event): string {
    match e
    case AccountCreated(_, _) => CREATED
    case MoneyDeposited(_, _) => DEPOSITED
    case MoneyWithdrawn(_, _) => WITHDRAWN
  }

  function ToDict(e: Event): Fields {
    match e
    case AccountCreated(a, o) => map[TYPE := TypeOf(e), ACCOUNT := a, OWNER := o]
    case _ => map[TYPE := TypeOf(e), ACCOUNT := e.accountId, AMOUNT := e.amount]
  }

  /** The entry `append` writes: the payload over the event type. */
  function Entry(eventType: string, payload: Fields): Fields {
    map[TYPE := eventType] + payload
  }

  function DecodeAs(name: string, data: Fields, second: string): Result<Event> {
    if ACCOUNT !in data then Err(MissingField(ACCOUNT))
    else if second !in data then Err(MissingField(second))
    else if name == CREATED then Ok(AccountCreated(data[ACCOUNT], data[second]))
    else if name == DEPOSITED then Ok(MoneyDeposited(data[ACCOUNT], data[second]))
    else Ok(MoneyWithdrawn(data[ACCOUNT], data[second]))
  }

  function DecodeEvent(data: Fields): Result<Event> {
    var name := if TYPE in data then data[TYPE] else "";
    if name == CREATED then DecodeAs(name, data, OWNER)
    else if name == DEPOSITED || name == WITHDRAWN then DecodeAs(name, data, AMOUNT)
    else Err(UnknownEventType(name))
  }

  /** What is appended is what is read back. */
  lemma EventRoundTrip(e: Event)
    ensures DecodeEvent(Entry(TypeOf(e), ToDict(e))) == Ok(e)
  {
    assert CREATED != DEPOSITED && CREATED != WITHDRAWN && DEPOSITED != WITHDRAWN by {
      assert CREATED[0] != DEPOSITED[0] && DEPOSITED[5] != WITHDRAWN[5];
    }
    assert |TYPE| == 10 && |OWNER| == 8 && |AMOUNT| == 6 && ACCOUNT[0] != TYPE[0] && ACCOUNT[1] != AMOUNT[1];
    assert |ACCOUNT| == 10;
  }

  /** An entry decodes exactly when its type is known and its two fields are there, and it then names that event. */
  lemma DecodesExactlyTheKnown(data: Fields)
    ensures DecodeEvent(data).Ok? <==>
            && TYPE in data && ACCOUNT in data
            && ((data[TYPE] == CREATED && OWNER in data)
                || ((data[TYPE] == DEPOSITED || data[TYPE] == WITHDRAWN) && AMOUNT in data))
    ensures DecodeEvent(data).Err? ==>
              match DecodeEvent(data).error
              case UnknownEventType(name) =>
                && name == (if "event_type" in data then data["event_type"] else "")
                && name !in {"AccountCreated", "MoneyDeposited", "MoneyWithdrawn"}
              case MissingField(name) =>
                && name !in data && (name == "account_id" || "account_id" in data)
                && name == (if "account_id" !in data then "account_id"
                            else if data["event_type"] == "AccountCreated" then "owner_id" else "amount")
              case _ => false
    ensures DecodeEvent(data).Ok? ==> ToDict(DecodeEvent(data).value).Items <= data.Items
  {
    assert |CREATED| == 14 && |DEPOSITED| == 14 && CREATED[0] != DEPOSITED[0] && DEPOSITED[5] != WITHDRAWN[5];
    if DecodeEvent(data).Ok? {
      var g := ToDict(DecodeEvent(data).value);
      forall kv | kv in g.Items ensures kv in data.Items {
        assert kv.0 in data && data[kv.0] == kv.1;
      }
    }
  }
}
