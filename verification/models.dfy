/** The records the equipment routes read and the JSON objects they build.
    Only the fields the routes touch are kept. */
module Models {

  import Seqs

  datatype Option<T> = None | Some(value: T)

  /** An operator row: its identity, its service origin and the summary fields. */
  datatype Operator = Operator(
    id: int,
    latitude: real,
    longitude: real,
    businessName: string,
    suburb: string,
    state: string)

  /** An equipment row. `operatorId` is the foreign key of the owning operator;
      the rates are nullable columns. */
  datatype Equipment = Equipment(
    id: int,
    operatorId: int,
    name: string,
    description: string,
    dailyRate: Option<real>,
    weeklyRate: Option<real>,
    monthlyRate: Option<real>,
    availabilityStatus: string)

  /** The nested `operator` object of a nearby-search result. */
  datatype OperatorSummary = OperatorSummary(
    id: int,
    businessName: string,
    suburb: string,
    state: string)

  /** One object of the equipment listing: seven fields and no operator. */
  datatype ListingEntry = ListingEntry(
    id: int,
    name: string,
    description: string,
    dailyRate: Option<real>,
    weeklyRate: Option<real>,
    monthlyRate: Option<real>,
    availabilityStatus: string)

  /** One object of the nearby search: the same seven fields plus the owner's summary. */
  datatype NearbyEntry = NearbyEntry(
    id: int,
    name: string,
    description: string,
    dailyRate: Option<real>,
    weeklyRate: Option<real>,
    monthlyRate: Option<real>,
    availabilityStatus: string,
    operator: OperatorSummary)

  function OperatorId(o: Operator): int { o.id }

  /** The ids of `ops`, in order. */
  function Ids(ops: seq<Operator>): seq<int> { Seqs.Map(ops, OperatorId) }

  /** An id occurs in `Ids(ops)` exactly when some operator of `ops` carries it. */
  lemma IdsMembership(ops: seq<Operator>, id: int)
    ensures id in Ids(ops) <==> exists o :: o in ops && o.id == id
  {
  }

  /** Primary-key uniqueness of a snapshot of the operator table. */
  predicate UniqueIds(ops: seq<Operator>) {
    forall i, j :: 0 <= i < j < |ops| ==> ops[i].id != ops[j].id
  }

  /** The listing entry copies the seven equipment fields unchanged. */
  predicate CopiesListingFields(r: ListingEntry, e: Equipment) {
    && r.id == e.id && r.name == e.name && r.description == e.description
    && r.dailyRate == e.dailyRate && r.weeklyRate == e.weeklyRate
    && r.monthlyRate == e.monthlyRate && r.availabilityStatus == e.availabilityStatus
  }

  /** The nearby entry copies the seven equipment fields unchanged. */
  predicate CopiesNearbyFields(r: NearbyEntry, e: Equipment) {
    && r.id == e.id && r.name == e.name && r.description == e.description
    && r.dailyRate == e.dailyRate && r.weeklyRate == e.weeklyRate
    && r.monthlyRate == e.monthlyRate && r.availabilityStatus == e.availabilityStatus
  }

  /** The nested summary carries the operator's id, business name, suburb and state. */
  predicate Summarizes(s: OperatorSummary, o: Operator) {
    s.id == o.id && s.businessName == o.businessName && s.suburb == o.suburb && s.state == o.state
  }
}
