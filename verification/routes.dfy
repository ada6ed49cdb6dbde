/** The two equipment endpoints: the full listing and the proximity search.
    The tables are given as sequences (one consistent snapshot per request),
    and the haversine distance is the opaque parameter `dist`. */
module Routes {

  import opened Seqs
  import opened Models

  /** `dist(lat1, lon1, lat2, lon2)`: metres between two points given in degrees. */
  type Distance = (real, real, real, real) -> real

  const DefaultLatitude: real := 0.0
  const DefaultLongitude: real := 0.0
  /** Ten kilometres, in metres. */
  const DefaultRadius: real := 10000.0

  /** The query-string arguments of the nearby search, each possibly absent. */
  datatype QueryArgs = QueryArgs(lat: Option<real>, lng: Option<real>, radius: Option<real>)

  /** The query point and radius (metres) the search runs with. */
  datatype Query = Query(lat: real, lng: real, radius: real)

  function ArgOr(arg: Option<real>, default: real): real {
    match arg
    case Some(v) => v
    case None => default
  }

  /** Reads `lat`, `lng` and `radius`, falling back to 0, 0 and 10000 when absent. */
  function ReadQuery(args: QueryArgs): (q: Query)
    ensures args.lat.None? ==> q.lat == 0.0
    ensures args.lng.None? ==> q.lng == 0.0
    ensures args.radius.None? ==> q.radius == 10000.0
    ensures args.lat.Some? ==> q.lat == args.lat.value
    ensures args.lng.Some? ==> q.lng == args.lng.value
    ensures args.radius.Some? ==> q.radius == args.radius.value
  {
    Query(ArgOr(args.lat, DefaultLatitude), ArgOr(args.lng, DefaultLongitude),
          ArgOr(args.radius, DefaultRadius))
  }

  // ---------------------------------------------------------------------------
  // GET /equipment

  function ListingEntryOf(e: Equipment): ListingEntry {
    ListingEntry(e.id, e.name, e.description, e.dailyRate, e.weeklyRate, e.monthlyRate,
                 e.availabilityStatus)
  }

  /** One listing entry per equipment record, in the order the table yields them. */
  function Listing(equipment: seq<Equipment>): seq<ListingEntry> {
    Map(equipment, ListingEntryOf)
  }

  method GetEquipment(equipmentList: seq<Equipment>) returns (result: seq<ListingEntry>)
    ensures result == Listing(equipmentList)
    ensures |result| == |equipmentList|
    ensures forall i :: 0 <= i < |result| ==> CopiesListingFields(result[i], equipmentList[i])
  {
    result := [];
    for i := 0 to |equipmentList|
      invariant |result| == i
      invariant forall j :: 0 <= j < i ==> result[j] == ListingEntryOf(equipmentList[j])
    {
      result := result + [ListingEntryOf(equipmentList[i])];
    }
  }

  // ---------------------------------------------------------------------------
  // GET /equipment/nearby

  /** The test the operator loop applies: distance from the query point at most the radius. */
  predicate WithinRadius(dist: Distance, q: Query, o: Operator) {
    dist(q.lat, q.lng, o.latitude, o.longitude) <= q.radius
  }

  function InRange(dist: Distance, q: Query): Operator -> bool {
    (o: Operator) => WithinRadius(dist, q, o)
  }

  /** `nearby_operators`: the ids of the operators within the radius, in table order. */
  function NearbyOperatorIds(dist: Distance, q: Query, ops: seq<Operator>): seq<int> {
    Ids(Filter(ops, InRange(dist, q)))
  }

  /** The operator loop. */
  method CollectNearbyOperators(dist: Distance, q: Query, operators: seq<Operator>)
    returns (nearbyOperators: seq<int>)
    ensures nearbyOperators == NearbyOperatorIds(dist, q, operators)
  {
    nearbyOperators := [];
    for i := 0 to |operators|
      invariant nearbyOperators == NearbyOperatorIds(dist, q, operators[..i])
    {
      var operator := operators[i];
      var distance := dist(q.lat, q.lng, operator.latitude, operator.longitude);
      FilterConcat(operators[..i], [operator], InRange(dist, q));
      MapConcat(Filter(operators[..i], InRange(dist, q)), Filter([operator], InRange(dist, q)), OperatorId);
      assert operators[..i + 1] == operators[..i] + [operator];
      if distance <= q.radius {
        nearbyOperators := nearbyOperators + [operator.id];
      }
    }
    assert operators[..|operators|] == operators;
  }

  /** The equipment query: the rows whose `operator_id` is among `ids`. */
  function OwnedBy(ids: seq<int>): Equipment -> bool {
    (e: Equipment) => e.operatorId in ids
  }

  /** The equipment rows of the operators within the radius, in table order. */
  function NearbyEquipmentRecords(dist: Distance, q: Query, ops: seq<Operator>, equipment: seq<Equipment>)
    : seq<Equipment>
  {
    Filter(equipment, OwnedBy(NearbyOperatorIds(dist, q, ops)))
  }

  /** `equipment.operator`: the operator row the foreign key refers to (the first with that id). */
  function Owner(ops: seq<Operator>, id: int): (o: Operator)
    requires id in Ids(ops)
    ensures o in ops && o.id == id
    decreases |ops|
  {
    if ops[0].id == id then ops[0] else Owner(ops[1..], id)
  }

  function NearbyEntryOf(e: Equipment, owner: Operator): NearbyEntry {
    NearbyEntry(e.id, e.name, e.description, e.dailyRate, e.weeklyRate, e.monthlyRate,
                e.availabilityStatus,
                OperatorSummary(owner.id, owner.businessName, owner.suburb, owner.state))
  }

  /** Every equipment row of `kept` with its owner's summary attached, in order. */
  function WithOwners(ops: seq<Operator>, kept: seq<Equipment>): (r: seq<NearbyEntry>)
    requires forall e :: e in kept ==> e.operatorId in Ids(ops)
    ensures |r| == |kept|
  {
    if kept == [] then []
    else [NearbyEntryOf(kept[0], Owner(ops, kept[0].operatorId))] + WithOwners(ops, kept[1..])
  }

  /** Every kept equipment row has an owner in the operator snapshot. */
  lemma KeptOwnersKnown(dist: Distance, q: Query, ops: seq<Operator>, equipment: seq<Equipment>)
    ensures forall e :: e in NearbyEquipmentRecords(dist, q, ops, equipment) ==> e.operatorId in Ids(ops)
  {
    var near := Filter(ops, InRange(dist, q));
    forall e | e in NearbyEquipmentRecords(dist, q, ops, equipment)
      ensures e.operatorId in Ids(ops)
    {
      assert OwnedBy(Ids(near))(e);
      IdsMembership(near, e.operatorId);
      var o :| o in near && o.id == e.operatorId;
      IdsMembership(ops, e.operatorId);
    }
  }

  /** The response of the nearby search for the query `q`. */
  function NearbyResults(dist: Distance, q: Query, ops: seq<Operator>, equipment: seq<Equipment>)
    : seq<NearbyEntry>
  {
    KeptOwnersKnown(dist, q, ops, equipment);
    WithOwners(ops, NearbyEquipmentRecords(dist, q, ops, equipment))
  }

  lemma {:induction false} WithOwnersSnoc(ops: seq<Operator>, kept: seq<Equipment>, e: Equipment)
    requires forall x :: x in kept ==> x.operatorId in Ids(ops)
    requires e.operatorId in Ids(ops)
    ensures WithOwners(ops, kept + [e])
         == WithOwners(ops, kept) + [NearbyEntryOf(e, Owner(ops, e.operatorId))]
  {
    if kept == [] {
      assert kept + [e] == [e];
    } else {
      assert (kept + [e])[0] == kept[0] && (kept + [e])[1..] == kept[1..] + [e];
      WithOwnersSnoc(ops, kept[1..], e);
    }
  }

  method GetNearbyEquipment(dist: Distance, args: QueryArgs, operators: seq<Operator>,
                            equipment: seq<Equipment>)
    returns (result: seq<NearbyEntry>)
    ensures result == NearbyResults(dist, ReadQuery(args), operators, equipment)
  {
    var q := ReadQuery(args);
    var nearbyOperators := CollectNearbyOperators(dist, q, operators);
    var equipmentList := Filter(equipment, OwnedBy(nearbyOperators));
    assert equipmentList == NearbyEquipmentRecords(dist, q, operators, equipment);
    KeptOwnersKnown(dist, q, operators, equipment);
    result := [];
    for i := 0 to |equipmentList|
      invariant result == WithOwners(operators, equipmentList[..i])
    {
      var item := equipmentList[i];
      var owner := Owner(operators, item.operatorId);
      WithOwnersSnoc(operators, equipmentList[..i], item);
      assert equipmentList[..i + 1] == equipmentList[..i] + [item];
      result := result + [NearbyEntryOf(item, owner)];
    }
    assert equipmentList[..|equipmentList|] == equipmentList;
  }
}
