/**
 * The query-parameter check the service runs before a capacity lookup:
 * an ordered chain of guards, the first failing one deciding the message.
 */
module Validation {

  /** The largest capacity (kW) a query may ask for. */
  const MaxQueryCapacity := 100000

  const SelectionMessage := "지역본부와 변전소를 선택해주세요."
  const RangeMessage := "올바른 용량 범위를 설정해주세요."
  const MaxCapacityMessage := "조회 가능한 최대 용량은 100,000 kW입니다."

  /**
   * Checks a query for a region, a substation and a capacity range
   * (minimum, maximum) in kW. Returns (true, "") when the query is acceptable,
   * otherwise false and the message of the first check that fails.
   */
  function ValidateQueryParams(region: string, substation: string, capacityRange: (int, int)): (r: (bool, string))
    ensures r.0 <==> region != "" && substation != "" && 0 <= capacityRange.0 < capacityRange.1 <= MaxQueryCapacity
    ensures r.0 <==> r.1 == ""
    ensures region == "" || substation == "" ==> r.1 == SelectionMessage
    ensures region != "" && substation != "" && (capacityRange.0 < 0 || capacityRange.1 <= capacityRange.0)
      ==> r.1 == RangeMessage
    ensures region != "" && substation != "" && 0 <= capacityRange.0 < capacityRange.1 && capacityRange.1 > MaxQueryCapacity
      ==> r.1 == MaxCapacityMessage
  {
    var (min, max) := capacityRange;
    if region == "" || substation == "" then (false, SelectionMessage)
    else if min < 0 || max <= min then (false, RangeMessage)
    else if max > MaxQueryCapacity then (false, MaxCapacityMessage)
    else (true, "")
  }

  /** The three failure messages are distinct, so a message names the check
      that rejected the query. */
  lemma MessagesDistinct()
    ensures SelectionMessage != RangeMessage
    ensures SelectionMessage != MaxCapacityMessage
    ensures RangeMessage != MaxCapacityMessage
  {
  }
}
