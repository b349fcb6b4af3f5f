/**
 * The delivery-cost route of `src/app/api/novaposhta/delivery-cost/route.ts`:
 * free delivery from an order value of 1500, the base price 70 whenever the
 * carrier cannot be asked or gives no usable answer, and otherwise the
 * carrier's price.
 *
 * Query values are `Option<string>` (`None` when absent); the API key and
 * the sender-city variable are parameters; the carrier's reply is the
 * datatype `PriceReply`. Amounts are whole hryvnias: `parseFloat` is read
 * as `ParseInt` (`None` is NaN) and `Math.round` is the identity.
 */
module DeliveryCostRoute {
  import opened Common

  const FreeDeliveryFrom: int := 1500
  const BasePrice: int := 70
  const DefaultSenderCityRef: string := "8d5a980d-391c-11dd-90d9-001a92567626"

  /** What `getDocumentPrice` yields: a thrown error, a reply without data, or the first item's `Cost`. */
  datatype PriceReply = Threw | NoData | Priced(cost: Option<int>)

  /** `NOVA_POSHTA_SENDER_CITY_REF || default`. */
  function SenderCityRef(env: Option<string>): (r: string)
    ensures r != ""
    ensures Present(env) ==> r == env.value
    ensures !Present(env) ==> r == DefaultSenderCityRef
  {
    if Present(env) then env.value else DefaultSenderCityRef
  }

  /** `parseFloat(searchParams.get("cost") || "0")`: `None` is NaN. */
  function CostParam(param: Option<string>): (c: Option<int>)
    ensures !Present(param) ==> c == Some(0)
  {
    if Present(param) then ParseInt(param.value) else Some(0)
  }

  /** `parseFloat(searchParams.get("weight") || "1")`: `None` is NaN. */
  function WeightParam(param: Option<string>): (w: Option<int>)
    ensures !Present(param) ==> w == Some(1)
  {
    if Present(param) then ParseInt(param.value) else Some(1)
  }

  /** The `getDocumentPrice` request sent to the carrier; `None` in `weight` or `cost` is sent as `"NaN"`. */
  datatype PriceRequest = PriceRequest(apiKey: string, citySender: string, cityRecipient: string,
                                       weight: Option<int>, serviceType: string, cost: Option<int>,
                                       cargoType: string, seatsAmount: string)

  /** Whether the order value alone makes delivery free. */
  predicate FreeByCost(cost: Option<string>) {
    CostParam(cost).Some? && CostParam(cost).value >= FreeDeliveryFrom
  }

  /** The request `GET` sends to the carrier, or `None` when it answers without asking. */
  function CarrierRequest(cityRef: Option<string>, weight: Option<string>, cost: Option<string>,
                          apiKey: Option<string>, senderEnv: Option<string>): (r: Option<PriceRequest>)
    ensures r.Some? <==> !FreeByCost(cost) && Present(apiKey) && Present(cityRef)
    ensures r.Some? ==> r.value.citySender != "" && r.value.citySender == SenderCityRef(senderEnv)
    ensures r.Some? ==> r.value.apiKey == apiKey.value && r.value.cityRecipient == cityRef.value
    ensures r.Some? ==> r.value.weight == WeightParam(weight) && r.value.cost == CostParam(cost)
  {
    if FreeByCost(cost) || !Present(apiKey) || !Present(cityRef) then None
    else Some(PriceRequest(apiKey.value, SenderCityRef(senderEnv), cityRef.value, WeightParam(weight),
                           "WarehouseWarehouse", CostParam(cost), "Cargo", "1"))
  }

  /** `Math.round(parseFloat(Cost) || 70)`: a missing, zero or unreadable price falls back to 70. */
  function CarrierPrice(reply: PriceReply): (r: int)
    ensures reply.Priced? && reply.cost.Some? && reply.cost.value != 0 ==> r == reply.cost.value
    ensures !(reply.Priced? && reply.cost.Some? && reply.cost.value != 0) ==> r == BasePrice
  {
    if reply.Priced? && reply.cost.Some? && reply.cost.value != 0 then reply.cost.value else BasePrice
  }

  /** `GET(request)`: the `cost` in the JSON answer. */
  function DeliveryCost(cityRef: Option<string>, cost: Option<string>, apiKey: Option<string>, reply: PriceReply): (r: int)
    ensures CostParam(cost).Some? && CostParam(cost).value >= FreeDeliveryFrom ==> r == 0
    ensures !(CostParam(cost).Some? && CostParam(cost).value >= FreeDeliveryFrom) ==>
      r == (if !Present(apiKey) || !Present(cityRef) then BasePrice else CarrierPrice(reply))
  {
    var c := CostParam(cost);
    if c.Some? && c.value >= FreeDeliveryFrom then 0
    else if !Present(apiKey) then BasePrice
    else if !Present(cityRef) then BasePrice
    else CarrierPrice(reply)
  }

  /**
   * The carrier's reply decides the answer exactly when a request is sent:
   * with a request the answer is the carrier's price, and without one the
   * answer is the same whatever the carrier would have replied (0 when
   * free, 70 otherwise).
   */
  lemma AnswerFollowsRequest(cityRef: Option<string>, weight: Option<string>, cost: Option<string>,
                             apiKey: Option<string>, senderEnv: Option<string>, reply: PriceReply, other: PriceReply)
    ensures CarrierRequest(cityRef, weight, cost, apiKey, senderEnv).Some? ==>
      DeliveryCost(cityRef, cost, apiKey, reply) == CarrierPrice(reply)
    ensures CarrierRequest(cityRef, weight, cost, apiKey, senderEnv).None? ==>
      DeliveryCost(cityRef, cost, apiKey, reply) == DeliveryCost(cityRef, cost, apiKey, other)
      == (if FreeByCost(cost) then 0 else BasePrice)
  {
  }

  /** The answer is never negative when the carrier's price is not. */
  lemma DeliveryCostNonNegative(cityRef: Option<string>, cost: Option<string>, apiKey: Option<string>, reply: PriceReply)
    requires reply.Priced? && reply.cost.Some? ==> reply.cost.value >= 0
    ensures DeliveryCost(cityRef, cost, apiKey, reply) >= 0
  {
  }

  /**
   * Below the free-delivery threshold the answer is either the base price or
   * the carrier's non-zero price, and it is the base price whenever the
   * carrier failed.
   */
  lemma BelowThresholdCharged(cityRef: Option<string>, cost: Option<string>, apiKey: Option<string>, reply: PriceReply)
    requires CostParam(cost).Some? && CostParam(cost).value < FreeDeliveryFrom
    ensures var r := DeliveryCost(cityRef, cost, apiKey, reply);
      r == BasePrice || (reply.Priced? && reply.cost == Some(r) && r != 0)
    ensures reply.Threw? || reply.NoData? ==> DeliveryCost(cityRef, cost, apiKey, reply) == BasePrice
  {
  }

  /**
   * Delivery is free exactly when the order value reaches 1500: the
   * carrier's zero price is read as "no price" and charged at 70, so an
   * unreadable (NaN) cost is never free either.
   */
  lemma FreeExactlyFromThreshold(cityRef: Option<string>, cost: Option<string>, apiKey: Option<string>, reply: PriceReply)
    ensures DeliveryCost(cityRef, cost, apiKey, reply) == 0
            <==> CostParam(cost).Some? && CostParam(cost).value >= FreeDeliveryFrom
  {
  }
}
