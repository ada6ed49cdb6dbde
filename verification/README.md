# Equipment listing and proximity search — a Dafny model

This project models the two equipment endpoints of the EquipmentCentral rental
marketplace backend (`backend/app/routes.py`):

- `GET /equipment` (`get_equipment`) turns every equipment row into a JSON object
  holding seven fields: `id`, `name`, `description`, `daily_rate`, `weekly_rate`,
  `monthly_rate` and `availability_status`.
- `GET /equipment/nearby` (`get_nearby_equipment`) reads `lat`, `lng` and `radius`
  from the query string. Missing values default to 0, 0 and 10000 metres. The
  route walks every operator, computes the haversine distance from the query
  point, and collects the ids of the operators at distance `<= radius`. It then
  fetches the equipment whose `operator_id` is among those ids. Each row is
  returned with the seven fields above plus a nested `operator` object: `id`,
  `business_name`, `suburb` and `state`.

The model has four modules:

- `Seqs` (`seqs.dfy`): order-preserving `Filter` and `Map`, the subsequence
  relation `Subseq`, and the lemmas connecting them.
- `Models` (`models.dfy`): the operator and equipment rows, with only the fields
  the routes read, and the JSON objects the routes build.
- `Routes` (`routes.dfy`): the query defaults and the two endpoints. Each
  loop of the source is a method loop proved against a specification
  function: the listing loop against `Listing`, the operator loop against
  `NearbyOperatorIds`, and the projection loop against `NearbyResults`. The
  equipment query is the filter `NearbyEquipmentRecords`, and the route
  asserts that the rows it projects are exactly those.
- `NearbyProperties` (`nearby_properties.dfy`): what the search promises about
  those functions. This covers soundness, completeness, order, the zero-radius
  case, the empty answer, the projection, and monotonicity in the radius.

The database reads become inputs. `Operator.query.all()` is a sequence of
operators. `Equipment.query.all()` and the `in_` query take a sequence of
equipment rows (one consistent snapshot per request). The relationship
`equipment.operator` is the operator of that snapshot whose id equals the row's
`operator_id` (`Routes.Owner`). The haversine `calculate_distance` is the opaque
parameter `dist(lat1, lon1, lat2, lon2)`.

## Model

| member | source | states |
|---|---|---|
| `Routes.ReadQuery` | backend/app/routes.py:30-32 | an absent `lat` or `lng` reads as 0 and an absent `radius` as 10000; a present argument is used unchanged |
| `Routes.GetEquipment` | backend/app/routes.py:10-24 | the loop returns exactly one entry per equipment row, in input order, each copying the seven fields unchanged (and carrying no operator) |
| `Routes.CollectNearbyOperators` | backend/app/routes.py:34-42 | the operator loop builds `nearby_operators` as the ids of the operators passing `distance <= radius`, in table order |
| `Routes.Owner` | backend/app/routes.py:57-62 | the operator reached through `equipment.operator` belongs to the snapshot and carries the row's `operator_id` |
| `Routes.KeptOwnersKnown` | backend/app/routes.py:45-58 | every row returned by the `in_` query has its owner in the operator snapshot, so reading `equipment.operator.id` never fails |
| `Routes.GetNearbyEquipment` | backend/app/routes.py:27-65 | the whole route (defaults, operator loop, equipment query, projection loop) returns exactly `NearbyResults` for the defaulted query |
| `NearbyProperties.NearbyIdsSound` | backend/app/routes.py:39-42 | every collected id belongs to an operator whose distance from the query point is at most the radius |
| `NearbyProperties.NearbyIdsComplete` | backend/app/routes.py:36-42 | every operator within the radius has its id collected |
| `NearbyProperties.NearbyIdsInTableOrder` | backend/app/routes.py:36-42 | the collected ids are exactly one per kept operator: the i-th id is the id of the i-th operator passing the radius test, in table order; hence they are a subsequence of the operator ids and at most as many as the operators |
| `NearbyProperties.NearbyIdsMonotone` | backend/app/routes.py:41-42 | a larger radius keeps every id a smaller radius keeps, in the same order |
| `NearbyProperties.OperatorAtQueryPointKept` | backend/app/routes.py:39-45 | if the distance of a point to itself is 0, an operator exactly at the query point is kept, with all its equipment, for every radius >= 0 |
| `NearbyProperties.KeptEquipmentExactly` | backend/app/routes.py:45 | a row is returned by the equipment query if and only if it is in the equipment table and some operator with its `operator_id` lies within the radius |
| `NearbyProperties.KeptEquipmentInTableOrder` | backend/app/routes.py:45 | the returned rows keep the order of the equipment table |
| `NearbyProperties.NoOperatorInRange` | backend/app/routes.py:36-65 | when no operator lies within the radius, `nearby_operators` and the response are both empty lists, not an error |
| `NearbyProperties.NearbyResultsProjection` | backend/app/routes.py:47-63 | one response entry per returned row, in the same order; each copies the seven fields unchanged, and its nested operator summarises an operator of the snapshot whose id is the row's `operator_id` |
| `NearbyProperties.ResultOwnersInRange` | backend/app/routes.py:39-63 | with unique operator ids, the nested operator of every response entry is an operator within the radius |
| `NearbyProperties.InRangeEquipmentReturned` | backend/app/routes.py:39-63 | with unique operator ids, every equipment row whose owner lies within the radius appears in the response with that owner's summary |
| `NearbyProperties.NearbyResultsMonotone` | backend/app/routes.py:41-63 | raising the radius never removes or reorders a response entry: the smaller response is a subsequence of the larger one |
| `NearbyProperties.AllInRangeGivesListing` | backend/app/routes.py:12-23 | when every operator is in range and every row's owner exists, the search returns every row, and each entry without its operator is the listing entry of `get_equipment` |

## Left out

- `calculate_distance` (backend/app/routes.py:67-81): the haversine formula uses floating-point `radians`, `sin`, `cos`, `asin` and `sqrt`, which are outside this model. It is the opaque parameter `dist`. No symmetry, non-negativity or triangle property is assumed of it.
- The `math.asin` domain error when rounding pushes the haversine intermediate above 1 is not modelled. That failure path would abort the request.
- Python floats are modelled as Dafny reals, which have no `nan` or `inf`. `float()` accepts both. A `radius` of `nan` fails every `<=` test and yields an empty response; a `radius` of `inf` keeps every operator. A `lat` or `lng` of `nan` likewise yields an empty response. A `lat` or `lng` of `inf` makes the latitude or longitude difference infinite, so `math.sin` raises `ValueError` (backend/app/routes.py:78) as soon as one operator exists: a second failure path besides the `asin` one, not modelled.
- `float(request.args.get(...))` parse failures for non-numeric arguments are not modelled. `QueryArgs` holds already-parsed values or absence.
- Flask routing (`Blueprint`), `jsonify` and the SQLAlchemy queries are replaced by input sequences and the `Filter` membership test. The database gives no ordering guarantee; the model uses the snapshot's order.
- The `Equipment` and `Operator` models are not part of this model: `backend/app/models.py` does not define them. Records hold exactly the fields the routes read. The rates are typed as nullable reals and `availability_status` as a string, because their column types are not available.
- Soft deletion is not modelled: the route reads every operator (backend/app/routes.py:35) and filters nothing by a deletion flag.
- An equipment row whose `operator_id` names no operator never reaches the nearby projection (`Routes.KeptOwnersKnown`). The listing does not read the operator, so the dangling-reference failure of `equipment.operator.id` is not modelled.
- ResultOwnersInRange: assumes unique operator ids, which the primary key of the operator table guarantees. Without it, `equipment.operator` could name a different operator with the same id than the one found in range.
- InRangeEquipmentReturned: assumes unique operator ids for the same reason.
- OperatorAtQueryPointKept: proves only that an operator at the query point is kept. The converse, that radius 0 keeps only operators exactly at the query point, would need `dist(p, q) == 0` to imply `p == q`, which floating-point haversine does not promise.
- Operator and query-point coordinates are not range-checked, and neither is the radius. The source does not check them either, so a negative radius is passed straight to the `<=` test.
- `backend/init_db.py`, `backend/app/__init__.py`, `backend/database.py` and the enumerations and column declarations of `backend/app/models.py` are database bootstrap, application setup and ORM declarations without behaviour, and are not part of this model.
