/**
 * The substation lookup of the capacity service: a substation name is
 * turned into a postal address (the utility's endpoint searches by address),
 * an unknown name falling back to the Jeonju substation's address; the
 * lookup response is then normalised. The HTTP call itself is a parameter.
 */
module Service {
  import opened Wrappers
  import opened Normaliser

  /** A postal address in the endpoint's search fields. */
  datatype Address = Address(
    province: string,  // do
    city: string,      // si
    district: string,  // gu
    town: string,      // lidong
    village: string,   // li
    lotNumber: string  // jibun
  )

  /** The payload of a capacity lookup: the search kind and the address. */
  datatype SearchParams = SearchParams(searchCondition: string, address: Address)

  /** The address used for a substation that is not in the table. */
  const DefaultAddress := Address("전북특별자치도", "전주시", "덕진구", "강흥동", "춘포리", "553-5")

  /** Known substations and the address searched for each. */
  const SubstationAddresses: map<string, Address> := map[
    "전주변전소" := Address("전북특별자치도", "전주시", "덕진구", "강흥동", "춘포리", "553-5"),
    "익산변전소" := Address("전북특별자치도", "익산시", "익산시", "영등동", "", "100"),
    "군산변전소" := Address("전북특별자치도", "군산시", "군산시", "경암동", "", "200"),
    "정읍변전소" := Address("전북특별자치도", "정읍시", "정읍시", "시기동", "", "300"),
    "강남변전소" := Address("서울특별시", "강남구", "강남구", "역삼동", "", "100"),
    "강북변전소" := Address("서울특별시", "강북구", "강북구", "미아동", "", "200"),
    "강서변전소" := Address("서울특별시", "강서구", "강서구", "화곡동", "", "300"),
    "강동변전소" := Address("서울특별시", "강동구", "강동구", "천호동", "", "400"),
    "용산변전소" := Address("서울특별시", "용산구", "용산구", "한강로동", "", "500"),
    "수원변전소" := Address("경기도", "수원시", "영통구", "매탄동", "", "100"),
    "성남변전소" := Address("경기도", "성남시", "분당구", "정자동", "", "200"),
    "고양변전소" := Address("경기도", "고양시", "일산동구", "장항동", "", "300"),
    "안양변전소" := Address("경기도", "안양시", "만안구", "안양동", "", "400"),
    "의정부변전소" := Address("경기도", "의정부시", "의정부시", "의정부동", "", "500")
  ]

  /**
   * The address searched for a substation: its table entry, or the default
   * address for a name the table does not know.
   */
  function SubstationAddress(substation: string): (a: Address)
    ensures substation in SubstationAddresses ==> a == SubstationAddresses[substation]
    ensures substation !in SubstationAddresses ==> a == DefaultAddress
    ensures a in SubstationAddresses.Values
  {
    assert SubstationAddresses["전주변전소"] == DefaultAddress;
    if substation in SubstationAddresses then SubstationAddresses[substation] else DefaultAddress
  }

  /** An unknown substation is searched at the Jeonju substation's address. */
  lemma UnknownSubstationIsJeonju(substation: string)
    requires substation !in SubstationAddresses
    ensures SubstationAddress(substation) == SubstationAddress("전주변전소")
  {
  }

  /** The payload for an address search. */
  function AddressSearch(a: Address): SearchParams {
    SearchParams("address", a)
  }

  /** Normalises what the lookup returned: nothing, or an empty body, gives no answer. */
  function FormatLookup(answer: Option<Response>): (r: Option<seq<Row>>)
    ensures r.Some? <==> answer.Some? && !answer.value.IsEmpty()
    ensures r.Some? ==> r.value == FormattedRows(answer.value)
  {
    match answer
    case None => None
    case Some(resp) => if resp.IsEmpty() then None else Some(FormattedRows(resp))
  }

  /**
   * A capacity lookup by substation name: search the substation's address
   * with `retrieveMeshNo` (the HTTP call) and normalise the answer.
   */
  function CallKepcoApi(substation: string, retrieveMeshNo: SearchParams -> Option<Response>): (r: Option<seq<Row>>)
    ensures var answer := retrieveMeshNo(AddressSearch(SubstationAddress(substation)));
      r.Some? <==> answer.Some? && !answer.value.IsEmpty()
    ensures var answer := retrieveMeshNo(AddressSearch(SubstationAddress(substation)));
      r.Some? ==> r.value == FormattedRows(answer.value)
  {
    FormatLookup(retrieveMeshNo(AddressSearch(SubstationAddress(substation))))
  }

  /** A capacity lookup by address fields. */
  function CallKepcoApiByAddress(
    province: string, city: string, district: string, town: string, village: string, lotNumber: string,
    retrieveMeshNo: SearchParams -> Option<Response>): (r: Option<seq<Row>>)
    ensures var answer := retrieveMeshNo(AddressSearch(Address(province, city, district, town, village, lotNumber)));
      r.Some? <==> answer.Some? && !answer.value.IsEmpty()
    ensures var answer := retrieveMeshNo(AddressSearch(Address(province, city, district, town, village, lotNumber)));
      r.Some? ==> r.value == FormattedRows(answer.value)
  {
    FormatLookup(retrieveMeshNo(AddressSearch(Address(province, city, district, town, village, lotNumber))))
  }

  /** Looking up a substation is the address lookup of its table address. */
  lemma LookupBySubstationIsByAddress(substation: string, retrieveMeshNo: SearchParams -> Option<Response>)
    ensures var a := SubstationAddress(substation);
      CallKepcoApi(substation, retrieveMeshNo)
        == CallKepcoApiByAddress(a.province, a.city, a.district, a.town, a.village, a.lotNumber, retrieveMeshNo)
  {
  }

  /** A response without `dlt_resultList` but with other keys yields an empty
      list of rows, not "no answer". */
  lemma ResponseWithoutResultList(retrieveMeshNo: SearchParams -> Option<Response>, substation: string)
    requires retrieveMeshNo(AddressSearch(SubstationAddress(substation))) == Some(Response(None, true))
    ensures CallKepcoApi(substation, retrieveMeshNo) == Some([])
  {
  }
}
