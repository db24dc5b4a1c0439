# Grid-connection capacity normaliser

A Dafny model of the core of a small dashboard that looks up how much
renewable generation can still be connected to the national utility's grid.
The utility's capacity lookup answers with a list of facility records
(`dlt_resultList`), one per chain of grid stages: substation, main
transformer, distribution line. The service normalises each record into
display rows, and that normaliser is what this project models and proves:

- the chain's **final connectable capacity** (최종접속가능용량): the least of
  the strictly positive per-stage spare values `VOL_1`, `VOL_2`, `VOL_3`, or
  0 when none is positive (`Capacity.FinalCapacity`, built from Python's
  comprehension and `min(..., default=0)` as `Positives` and `MinOr`);
- the chain's **status** (상태): "정상" (normal) when the final capacity is
  positive, "포화" (saturated) otherwise;
- the **plan-reflected spare** (접속계획반영여유용량) of a stage: standard
  capacity minus plan-reflected capacity when both are positive, else 0,
  never clamped (an over-committed line shows a negative value);
- the **row expansion**: a substation row always, a main transformer row when
  `MTR_CAPA > 0`, a distribution line row when `DL_CAPA > 0`, in that order,
  all carrying the chain's final capacity and status
  (`Normaliser.ExpandRecord`); records are processed in input order and rows
  appended (`Normaliser.FormatApiResponse`, a loop proved equal to the
  specification function `Normaliser.FormatRecords`).

Beside it sit the query-parameter check (`Validation.ValidateQueryParams`)
and the substation-to-address table with its fixed Jeonju default
(`Service.SubstationAddress`), through which a lookup by substation name is
turned into an address search (`Service.CallKepcoApi`). The HTTP request is a
function parameter `retrieveMeshNo`, so the model says what the service does
with whatever the endpoint answers.

Modules: `Wrappers` (Option), `Capacity` (chain arithmetic), `Normaliser`
(records, rows, the normaliser and its properties), `Validation`, `Service`.

The bottleneck is taken over the `VOL_1..3` values the endpoint reports; a
stage drops out of the minimum when its `VOL` is not positive, whatever its
standard capacity; the plan-reflected spare is not floored at zero.

One consequence, stated by `Capacity.ZeroStageIgnored`: a stage whose spare
is 0 does not saturate the chain when another stage still has spare capacity.
The sample chain in the development fixture at utils/kepco_api.py:386-445
(spare 98,496 / 10,741 / 0) is labelled final capacity 0 and "포화" there,
while the normaliser computes 10,741 and "정상" for those values. The model
keeps the normaliser's behaviour.

## Model

| member | source | states |
|---|---|---|
| Capacity.Positives | utils/kepco_api.py:155 | the comprehension keeps exactly the strictly positive values of the list and nothing else |
| Capacity.MinOr | utils/kepco_api.py:155 | `min(xs, default=d)` is `d` on an empty list, otherwise an element of the list no greater than any element |
| Capacity.FinalCapacity | utils/kepco_api.py:149-155 | the final capacity is never negative, is 0 exactly when no VOL is positive, otherwise is one of the VOLs and no greater than any positive VOL |
| Capacity.StatusLabel | utils/kepco_api.py:156 | the label is "정상" exactly for the normal status and "포화" for the saturated one |
| Capacity.ChainStatus | utils/kepco_api.py:155-156 | a chain is labelled "정상" exactly when at least one of VOL_1..3 is positive, "포화" otherwise |
| Capacity.ZeroStageIgnored | utils/kepco_api.py:155 | a zero-spare line stage does not saturate a chain whose other stages have spare: (98496, 10741, 0) gives 10741 and normal |
| Capacity.PlanReflectedSpare | utils/kepco_api.py:158-161 | nonzero only when standard and plan-reflected capacity are both positive, and then it is their difference; always below the standard capacity when that is positive |
| Capacity.PlanReflectedSpareUnclamped | utils/kepco_api.py:209-213 | the plan-reflected spare is not clamped: 12,000 kW standard with 14,314 kW planned gives -2,314 |
| Normaliser.ExpandRecord | utils/kepco_api.py:150-233 | a record expands into 1 + [MTR_CAPA > 0] + [DL_CAPA > 0] rows |
| Normaliser.ExpandRecordShape | utils/kepco_api.py:150-233 | one to three rows, substation first, a transformer row iff MTR_CAPA > 0, a line row iff DL_CAPA > 0, in chain order; each row's 변전소 column is `<SUBST_NM>변전소`, its 주변압기 column "-" on the substation row and `#<MTR_NO>` elsewhere (`#-` when MTR_NO is absent), its 배전선로 column `DL_NM` on the line row ("-" when absent) and "-" elsewhere; its figures are its stage's fields and its plan-reflected spare; all rows share the chain's final capacity and status |
| Normaliser.FormattedRows | utils/kepco_api.py:143-148 | a response without `dlt_resultList` gives no rows |
| Normaliser.FormatApiResponse | utils/kepco_api.py:143-235 | the loop that appends each record's rows produces exactly the rows of the records in input order |
| Normaliser.FormatRecordsAppend | utils/kepco_api.py:148-233 | records are normalised independently: normalising a concatenation concatenates the results |
| Normaliser.FormatRecordsOrder | utils/kepco_api.py:148-233 | record j's rows come after those of the records before it and before those of the records after it |
| Normaliser.FormatRecordsLength | utils/kepco_api.py:148-235 | the output length is the sum of the per-record row counts, between one and three rows per record |
| Normaliser.ExpandRecordStageCounts | utils/kepco_api.py:163-233 | one record yields exactly one substation row, one transformer row iff MTR_CAPA > 0 and one line row iff DL_CAPA > 0 |
| Normaliser.StageRowsPerRecord | utils/kepco_api.py:148-233 | the output has as many substation rows as records, as many transformer rows as records with MTR_CAPA > 0, as many line rows as records with DL_CAPA > 0 |
| Normaliser.RowsBelongToTheirRecord | utils/kepco_api.py:148-233 | the k-th row of record j sits at the offset of record j's rows plus k, and carries record j's figures, final capacity and status |
| Normaliser.OutputRowsConsistent | utils/kepco_api.py:155-226 | every output row has a non-negative final capacity, is normal exactly when it is positive, and its plan-reflected spare agrees with its own standard and planned figures |
| Validation.ValidateQueryParams | utils/kepco_api.py:663-680 | accepted exactly when region and substation are non-empty and 0 <= min < max <= 100000; the message is empty exactly on acceptance, otherwise that of the first failing check in the order names, range, maximum |
| Validation.MessagesDistinct | utils/kepco_api.py:671-678 | the three rejection messages differ, so the message identifies the failing check |
| Service.SubstationAddress | utils/kepco_api.py:60-75 | a known substation gets its table address, an unknown one the fixed default; the result is always one of the table's addresses |
| Service.UnknownSubstationIsJeonju | utils/kepco_api.py:66-75 | every unknown substation is searched at the same address as the Jeonju substation |
| Service.FormatLookup | utils/kepco_api.py:85-88 | no answer or an empty body gives no result; any other body gives its normalised rows |
| Service.CallKepcoApi | utils/kepco_api.py:49-88 | a lookup by substation name returns rows exactly when the endpoint answers a non-empty body for the substation's address, and those rows are the normalised rows of that body |
| Service.CallKepcoApiByAddress | utils/kepco_api.py:337-366 | a lookup by address returns rows exactly when the endpoint answers a non-empty body for that address, and those rows are the normalised rows of that body |
| Service.LookupBySubstationIsByAddress | utils/kepco_api.py:49-88 | a lookup by substation name is the lookup by address of the substation's table address |
| Service.ResponseWithoutResultList | utils/kepco_api.py:85-88 | a non-empty body without `dlt_resultList` gives an empty list of rows, not "no result" |

## Left out

- HTTP: `_retrieve_mesh_no` is the parameter `retrieveMeshNo`; `_get_address_init`, `get_address_data` and `retrieve_mesh_capacity` are network calls only and are not modelled.
- `query_connection_capacity`, `query_by_address`, `query_by_transformer_number`: they only choose between the real call and the development mock generators by whether an API key is set, and print on exceptions.
- The development mock generators (`_generate_mock_response`, `_generate_mock_response_by_address`, `_generate_mock_transformer_response`): random numbers, sleeps and fixture data.
- `_load_mock_data`, `get_substation_info`, `get_renewable_type_info`: file reads.
- The ratio column 여유용량비율(%): floating-point division and rounding.
- Thousands-separator rendering of capacities (`f"{x:,}"`): rows keep the integers.
- Parsing of raw values with `int()` and the catch-all that turns a parse failure into no result: record fields are already integers, an absent key being 0; names are strings or absent.
- The duplicated raw columns (`SUBST_CAPA`, `VOL_1`, ...) that each row preserves: they hold the same integers as the row's figures, and the row's `stage` records which set is present.
- `capacity_range` and `connection_types`: `_call_kepco_api` and `_call_kepco_api_by_address` ignore them, so the model's lookups do not take them.
- The Streamlit page (app.py) is not part of this model.
