/**
 * `WebhookUtils.validateEventStructure`: a chain of guards over the decoded event that
 * stops at the first one failing. The guards use JavaScript truthiness, so empty strings
 * and a zero amount are rejected, and arrays pass the `typeof === "object"` tests.
 */
module EventSchema {
  import opened Base
  import opened Js

  /** The seven event types the SDK accepts. */
  const EventTypes: seq<string> := [
    "payment_intent.created",
    "payment_intent.attempting",
    "payment_intent.processing",
    "payment_intent.succeeded",
    "payment_intent.failed",
    "payment_intent.cancelled",
    "payment_intent.expired"
  ]

  /** The reasons `validateEventStructure` reports, in the order it checks them. */
  datatype EventError =
    | NotAnObject
    | MissingEventType
    | UnknownEventType(typeField: Value)
    | MissingData
    | MissingTimestamp
    | MissingTransaction
    | InvalidTransactionId
    | InvalidCommodityAmount
    | InvalidCommodity
    | InvalidStatus
  {
    /**
     * The `error` text `parseEvent` reports for this reason. For an unknown type whose
     * `type` field cannot be interpolated, building the message throws, and `parseEvent`
     * reports the TypeError's message instead.
     */
    function Message(): (m: string)
      ensures m != []
      ensures this.UnknownEventType? ==> (Display(this.typeField).Some? <==> "Invalid event type: " <= m)
      ensures this.UnknownEventType? && Display(this.typeField).None? ==> m == ConversionError
    {
      match this
      case NotAnObject => "Event data must be an object"
      case MissingEventType => "Event must have a valid type"
      // The source interpolates `eventData.type`, not the `event` field it checked.
      case UnknownEventType(t) =>
        (match Display(t)
         case Some(text) => "Invalid event type: " + text
         case None => assert ConversionError[0] != 'I'; ConversionError)
      case MissingData => "Event must have valid data"
      case MissingTimestamp => "Event must have a valid timestamp"
      case MissingTransaction => "Event data must have a valid transaction object"
      case InvalidTransactionId => "Transaction must have a valid ID"
      case InvalidCommodityAmount => "Transaction must have a valid commodity_amount"
      case InvalidCommodity => "Transaction must have a valid commodity"
      case InvalidStatus => "Transaction must have a valid status"
    }
  }

  datatype Validation = Valid | Invalid(error: EventError)

  predicate IsKnownType(v: Value) {
    v.Some? && v.value.JStr? && v.value.s in EventTypes
  }

  /** `validateEventStructure(eventData)`. */
  function ValidateEventStructure(eventData: Json): (r: Validation)
    ensures r == Valid <==> WellFormedEvent(eventData)
  {
    if !IsObjectLike(Some(eventData)) then Invalid(NotAnObject)
    else
      var event := Prop(eventData, "event");
      if !IsNonEmptyString(event) then Invalid(MissingEventType)
      else if event.value.s !in EventTypes then Invalid(UnknownEventType(Prop(eventData, "type")))
      else
        var data := Prop(eventData, "data");
        if !IsObjectLike(data) then Invalid(MissingData)
        else if !IsNonEmptyString(Prop(eventData, "timestamp")) then Invalid(MissingTimestamp)
        // The source repeats the `data` check here; it can never fail.
        else if !IsObjectLike(data) then assert false; Invalid(MissingData)
        else
          var transaction := Prop(data.value, "transaction");
          if !IsObjectLike(transaction) then Invalid(MissingTransaction)
          else
            var tx := transaction.value;
            if !IsNonEmptyString(Prop(tx, "id")) then Invalid(InvalidTransactionId)
            else if !IsPositiveNumber(Prop(tx, "commodity_amount")) then Invalid(InvalidCommodityAmount)
            else if !IsNonEmptyString(Prop(tx, "commodity")) then Invalid(InvalidCommodity)
            else if !IsNonEmptyString(Prop(tx, "status")) then Invalid(InvalidStatus)
            else Valid
  }

  // ---------------------------------------------------------------------------
  // An independent description of the events that pass

  predicate HasNonEmptyString(m: map<string, Json>, key: string) {
    key in m && m[key].JStr? && m[key].s != []
  }

  /**
   * An event passes when it is an object whose `event` is one of the seven types, whose
   * `timestamp` is a non-empty string, and whose `data.transaction` is an object with a
   * non-empty string `id`, `commodity` and `status` and a positive `commodity_amount`.
   */
  predicate WellFormedEvent(j: Json) {
    && j.JObj?
    && "event" in j.fields && j.fields["event"].JStr? && j.fields["event"].s in EventTypes
    && HasNonEmptyString(j.fields, "timestamp")
    && "data" in j.fields && j.fields["data"].JObj?
    && var data := j.fields["data"].fields;
    && "transaction" in data && data["transaction"].JObj?
    && var tx := data["transaction"].fields;
    && HasNonEmptyString(tx, "id")
    && "commodity_amount" in tx && tx["commodity_amount"].JNum? && tx["commodity_amount"].n > 0
    && HasNonEmptyString(tx, "commodity")
    && HasNonEmptyString(tx, "status")
  }

  // ---------------------------------------------------------------------------
  // The order of the checks

  /** The ten guards in source order, each paired with the reason it reports. */
  function EventChecks(j: Json): (checks: seq<(bool, EventError)>)
    ensures |checks| == 10
  {
    var ev := Some(j);
    var event := OptionalProp(ev, "event");
    var data := OptionalProp(ev, "data");
    var tx := OptionalProp(data, "transaction");
    [ (IsObjectLike(ev), NotAnObject),
      (IsNonEmptyString(event), MissingEventType),
      (IsKnownType(event), UnknownEventType(OptionalProp(ev, "type"))),
      (IsObjectLike(data), MissingData),
      (IsNonEmptyString(OptionalProp(ev, "timestamp")), MissingTimestamp),
      (IsObjectLike(tx), MissingTransaction),
      (IsNonEmptyString(OptionalProp(tx, "id")), InvalidTransactionId),
      (IsPositiveNumber(OptionalProp(tx, "commodity_amount")), InvalidCommodityAmount),
      (IsNonEmptyString(OptionalProp(tx, "commodity")), InvalidCommodity),
      (IsNonEmptyString(OptionalProp(tx, "status")), InvalidStatus) ]
  }

  /** The reason reported is that of the first guard that fails. */
  lemma ValidateFirstFailure(j: Json, k: nat)
    requires k < 10
    requires forall i :: 0 <= i < k ==> EventChecks(j)[i].0
    requires !EventChecks(j)[k].0
    ensures ValidateEventStructure(j) == Invalid(EventChecks(j)[k].1)
  {
    var c := EventChecks(j);
    if k > 0 { assert c[0].0; }
    if k > 1 { assert c[1].0; }
    if k > 2 { assert c[2].0; }
    if k > 3 { assert c[3].0; }
    if k > 4 { assert c[4].0; }
    if k > 5 { assert c[5].0; }
    if k > 6 { assert c[6].0; }
    if k > 7 { assert c[7].0; }
    if k > 8 { assert c[8].0; }
  }

  /** The event is valid exactly when every guard passes. */
  lemma ValidateAllPass(j: Json)
    ensures ValidateEventStructure(j) == Valid <==> forall i :: 0 <= i < 10 ==> EventChecks(j)[i].0
  {
    var c := EventChecks(j);
    if ValidateEventStructure(j) == Valid {
      assert c[0].0 && c[1].0 && c[2].0 && c[3].0 && c[4].0;
      assert c[5].0 && c[6].0 && c[7].0 && c[8].0 && c[9].0;
    }
    if forall i :: 0 <= i < 10 ==> c[i].0 {
      assert c[0].0 && c[1].0 && c[2].0 && c[3].0 && c[4].0;
      assert c[5].0 && c[6].0 && c[7].0 && c[8].0 && c[9].0;
    }
  }

  /** `data` is checked before `timestamp`: an event lacking both is reported as lacking data. */
  lemma DataBeforeTimestamp(m: map<string, Json>, t: string)
    requires t in EventTypes
    requires "data" !in m && "timestamp" !in m
    ensures ValidateEventStructure(JObj(m["event" := JStr(t)])) == Invalid(MissingData)
  {
  }

  /** An empty `event` string is falsy and reported as a missing type. */
  lemma EmptyEventTypeRejected(m: map<string, Json>)
    ensures ValidateEventStructure(JObj(m["event" := JStr("")])) == Invalid(MissingEventType)
  {
  }

  /**
   * The unknown-type reason carries `eventData.type`: two events that differ only in an
   * unknown `event` value get the same message.
   */
  lemma UnknownTypeIgnoresEvent(m: map<string, Json>, e1: string, e2: string)
    requires e1 != [] && e2 != [] && e1 !in EventTypes && e2 !in EventTypes
    ensures ValidateEventStructure(JObj(m["event" := JStr(e1)]))
         == ValidateEventStructure(JObj(m["event" := JStr(e2)]))
         == Invalid(UnknownEventType(Field(m, "type")))
  {
    assert Prop(JObj(m["event" := JStr(e1)]), "type") == Field(m, "type");
    assert Prop(JObj(m["event" := JStr(e2)]), "type") == Field(m, "type");
  }

  /** An array passes the object test on `data`, and then has no `transaction`. */
  lemma ArrayDataPassesObjectTest(m: map<string, Json>, t: string, ts: string, items: seq<Json>)
    requires t in EventTypes && ts != []
    ensures ValidateEventStructure(JObj(m["event" := JStr(t)]["timestamp" := JStr(ts)]["data" := JArr(items)]))
         == Invalid(MissingTransaction)
  {
  }

  /** A zero or negative amount fails its own check even when every other field is valid. */
  lemma NonPositiveAmountRejected(j: Json)
    requires forall i :: 0 <= i < 7 ==> EventChecks(j)[i].0
    requires var tx := OptionalProp(OptionalProp(Some(j), "data"), "transaction");
      var amount := OptionalProp(tx, "commodity_amount");
      amount.Some? && amount.value.JNum? && amount.value.n <= 0
    ensures ValidateEventStructure(j) == Invalid(InvalidCommodityAmount)
  {
    ValidateFirstFailure(j, 7);
  }
}
