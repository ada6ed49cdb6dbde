/** What the nearby search promises: which operators it keeps, which equipment
    it returns, in which order, with which fields, and how the answer grows
    with the radius. */
module NearbyProperties {

  import opened Seqs
  import opened Models
  import opened Routes

  // ---------------------------------------------------------------------------
  // The operator loop

  /** Soundness: every id collected belongs to an operator within the radius. */
  lemma NearbyIdsSound(dist: Distance, q: Query, ops: seq<Operator>, id: int)
    requires id in NearbyOperatorIds(dist, q, ops)
    ensures exists o :: o in ops && o.id == id && WithinRadius(dist, q, o)
  {
  }

  /** Completeness: every operator within the radius has its id collected. */
  lemma NearbyIdsComplete(dist: Distance, q: Query, ops: seq<Operator>, o: Operator)
    requires o in ops && WithinRadius(dist, q, o)
    ensures o.id in NearbyOperatorIds(dist, q, ops)
  {
  }

  /** One id per kept operator, in the order of the operator table. */
  lemma NearbyIdsInTableOrder(dist: Distance, q: Query, ops: seq<Operator>)
    ensures |NearbyOperatorIds(dist, q, ops)| <= |ops|
    ensures Subseq(NearbyOperatorIds(dist, q, ops), Ids(ops))
    ensures |NearbyOperatorIds(dist, q, ops)| == |Filter(ops, InRange(dist, q))|
    ensures forall i :: 0 <= i < |NearbyOperatorIds(dist, q, ops)| ==>
              NearbyOperatorIds(dist, q, ops)[i] == Filter(ops, InRange(dist, q))[i].id
  {
    FilterIsSubseq(ops, InRange(dist, q));
    SubseqMap(Filter(ops, InRange(dist, q)), ops, OperatorId);
  }

  /** A larger radius keeps every id a smaller one keeps, in the same order. */
  lemma NearbyIdsMonotone(dist: Distance, q: Query, radius: real, ops: seq<Operator>)
    requires q.radius <= radius
    ensures Subseq(NearbyOperatorIds(dist, q, ops), NearbyOperatorIds(dist, q.(radius := radius), ops))
  {
    var wider := q.(radius := radius);
    forall o | o in ops && InRange(dist, q)(o)
      ensures InRange(dist, wider)(o)
    {
      assert WithinRadius(dist, q, o);
    }
    FilterMonotone(ops, InRange(dist, q), InRange(dist, wider));
    SubseqMap(Filter(ops, InRange(dist, q)), Filter(ops, InRange(dist, wider)), OperatorId);
  }

  /** An operator standing exactly on the query point is kept, with all its
      equipment, for every radius >= 0, provided the distance of a point to
      itself is 0 (as the haversine formula gives: both deltas are 0). */
  lemma OperatorAtQueryPointKept(dist: Distance, q: Query, ops: seq<Operator>,
                                 equipment: seq<Equipment>, o: Operator)
    requires o in ops && o.latitude == q.lat && o.longitude == q.lng
    requires dist(q.lat, q.lng, q.lat, q.lng) == 0.0
    requires 0.0 <= q.radius
    ensures o.id in NearbyOperatorIds(dist, q, ops)
    ensures forall e :: e in equipment && e.operatorId == o.id ==>
              e in NearbyEquipmentRecords(dist, q, ops, equipment)
  {
  }

  // ---------------------------------------------------------------------------
  // The equipment query

  /** The equipment kept is exactly the input equipment whose operator is in range. */
  lemma KeptEquipmentExactly(dist: Distance, q: Query, ops: seq<Operator>,
                             equipment: seq<Equipment>, e: Equipment)
    ensures e in NearbyEquipmentRecords(dist, q, ops, equipment) <==>
            e in equipment && exists o :: o in ops && o.id == e.operatorId && WithinRadius(dist, q, o)
  {
    var ids := NearbyOperatorIds(dist, q, ops);
    if e in NearbyEquipmentRecords(dist, q, ops, equipment) {
      assert OwnedBy(ids)(e);
      NearbyIdsSound(dist, q, ops, e.operatorId);
    }
    if e in equipment && exists o :: o in ops && o.id == e.operatorId && WithinRadius(dist, q, o) {
      var o :| o in ops && o.id == e.operatorId && WithinRadius(dist, q, o);
      NearbyIdsComplete(dist, q, ops, o);
      assert OwnedBy(ids)(e);
    }
  }

  /** The kept equipment keeps the order of the equipment table. */
  lemma KeptEquipmentInTableOrder(dist: Distance, q: Query, ops: seq<Operator>, equipment: seq<Equipment>)
    ensures Subseq(NearbyEquipmentRecords(dist, q, ops, equipment), equipment)
  {
    FilterIsSubseq(equipment, OwnedBy(NearbyOperatorIds(dist, q, ops)));
  }

  /** No operator in range: the response is the empty list, not an error. */
  lemma NoOperatorInRange(dist: Distance, q: Query, ops: seq<Operator>, equipment: seq<Equipment>)
    requires forall o :: o in ops ==> !WithinRadius(dist, q, o)
    ensures NearbyOperatorIds(dist, q, ops) == []
    ensures NearbyResults(dist, q, ops, equipment) == []
  {
    var ids := NearbyOperatorIds(dist, q, ops);
    if ids != [] {
      NearbyIdsSound(dist, q, ops, ids[0]);
      assert false;
    }
    forall e | e in equipment
      ensures !OwnedBy(ids)(e)
    {
    }
    FilterNone(equipment, OwnedBy(ids));
  }

  // ---------------------------------------------------------------------------
  // The projection

  lemma {:induction false} WithOwnersAt(ops: seq<Operator>, kept: seq<Equipment>, i: nat)
    requires forall e :: e in kept ==> e.operatorId in Ids(ops)
    requires i < |kept|
    ensures WithOwners(ops, kept)[i] == NearbyEntryOf(kept[i], Owner(ops, kept[i].operatorId))
  {
    if i > 0 {
      WithOwnersAt(ops, kept[1..], i - 1);
    }
  }

  /** One entry per kept equipment row, in the same order: the seven fields
      copied and the nested operator summarising the row's owner. */
  lemma NearbyResultsProjection(dist: Distance, q: Query, ops: seq<Operator>, equipment: seq<Equipment>)
    ensures |NearbyResults(dist, q, ops, equipment)| == |NearbyEquipmentRecords(dist, q, ops, equipment)|
    ensures forall i :: 0 <= i < |NearbyResults(dist, q, ops, equipment)| ==>
              var r, e := NearbyResults(dist, q, ops, equipment)[i], NearbyEquipmentRecords(dist, q, ops, equipment)[i];
              && CopiesNearbyFields(r, e)
              && r.operator.id == e.operatorId
              && exists o :: o in ops && Summarizes(r.operator, o)
  {
    var kept := NearbyEquipmentRecords(dist, q, ops, equipment);
    KeptOwnersKnown(dist, q, ops, equipment);
    forall i | 0 <= i < |kept|
      ensures var r := NearbyResults(dist, q, ops, equipment)[i];
              && CopiesNearbyFields(r, kept[i])
              && r.operator.id == kept[i].operatorId
              && exists o :: o in ops && Summarizes(r.operator, o)
    {
      WithOwnersAt(ops, kept, i);
      var o := Owner(ops, kept[i].operatorId);
      assert Summarizes(NearbyResults(dist, q, ops, equipment)[i].operator, o);
    }
  }

  lemma OwnerUnique(ops: seq<Operator>, o: Operator)
    requires UniqueIds(ops) && o in ops
    ensures o.id in Ids(ops) && Owner(ops, o.id) == o
  {
  }

  /** With unique operator ids, every result's nested operator is an operator within the radius. */
  lemma ResultOwnersInRange(dist: Distance, q: Query, ops: seq<Operator>, equipment: seq<Equipment>)
    requires UniqueIds(ops)
    ensures forall r :: r in NearbyResults(dist, q, ops, equipment) ==>
              exists o :: o in ops && Summarizes(r.operator, o) && WithinRadius(dist, q, o)
  {
    var kept := NearbyEquipmentRecords(dist, q, ops, equipment);
    var res := NearbyResults(dist, q, ops, equipment);
    KeptOwnersKnown(dist, q, ops, equipment);
    forall r | r in res
      ensures exists o :: o in ops && Summarizes(r.operator, o) && WithinRadius(dist, q, o)
    {
      var i :| 0 <= i < |res| && res[i] == r;
      WithOwnersAt(ops, kept, i);
      KeptEquipmentExactly(dist, q, ops, equipment, kept[i]);
      var o :| o in ops && o.id == kept[i].operatorId && WithinRadius(dist, q, o);
      OwnerUnique(ops, o);
      assert Summarizes(r.operator, o);
    }
  }

  /** With unique operator ids, every equipment row whose owner is within the
      radius appears in the response with that owner attached. */
  lemma InRangeEquipmentReturned(dist: Distance, q: Query, ops: seq<Operator>,
                                 equipment: seq<Equipment>, e: Equipment, o: Operator)
    requires UniqueIds(ops)
    requires e in equipment && o in ops && o.id == e.operatorId && WithinRadius(dist, q, o)
    ensures NearbyEntryOf(e, o) in NearbyResults(dist, q, ops, equipment)
  {
    var kept := NearbyEquipmentRecords(dist, q, ops, equipment);
    KeptEquipmentExactly(dist, q, ops, equipment, e);
    KeptOwnersKnown(dist, q, ops, equipment);
    var i :| 0 <= i < |kept| && kept[i] == e;
    WithOwnersAt(ops, kept, i);
    OwnerUnique(ops, o);
  }

  lemma {:induction false} SubseqWithOwners(ops: seq<Operator>, a: seq<Equipment>, b: seq<Equipment>)
    requires forall e :: e in b ==> e.operatorId in Ids(ops)
    requires Subseq(a, b)
    ensures forall e :: e in a ==> e.operatorId in Ids(ops)
    ensures Subseq(WithOwners(ops, a), WithOwners(ops, b))
    decreases |b|
  {
    SubseqMembers(a, b);
    if a != [] {
      var wa, wb := WithOwners(ops, a), WithOwners(ops, b);
      var rest := WithOwners(ops, b[1..]);
      assert wb == [wb[0]] + rest;
      if a[0] == b[0] && Subseq(a[1..], b[1..]) {
        SubseqWithOwners(ops, a[1..], b[1..]);
        assert wa[0] == wb[0] && wa[1..] == WithOwners(ops, a[1..]) && wb[1..] == rest;
      } else {
        SubseqWithOwners(ops, a, b[1..]);
        SubseqCons(wa, wb[0], rest);
      }
    }
  }

  /** A larger radius never removes an entry from the response, nor reorders it. */
  lemma NearbyResultsMonotone(dist: Distance, q: Query, radius: real, ops: seq<Operator>,
                              equipment: seq<Equipment>)
    requires q.radius <= radius
    ensures Subseq(NearbyResults(dist, q, ops, equipment),
                   NearbyResults(dist, q.(radius := radius), ops, equipment))
  {
    var wider := q.(radius := radius);
    var ids, wideIds := NearbyOperatorIds(dist, q, ops), NearbyOperatorIds(dist, wider, ops);
    NearbyIdsMonotone(dist, q, radius, ops);
    SubseqMembers(ids, wideIds);
    forall e | e in equipment && OwnedBy(ids)(e)
      ensures OwnedBy(wideIds)(e)
    {
    }
    FilterMonotone(equipment, OwnedBy(ids), OwnedBy(wideIds));
    KeptOwnersKnown(dist, wider, ops, equipment);
    SubseqWithOwners(ops, NearbyEquipmentRecords(dist, q, ops, equipment),
                     NearbyEquipmentRecords(dist, wider, ops, equipment));
  }

  // ---------------------------------------------------------------------------
  // The listing as the degenerate search

  /** When every operator is in range and every equipment row's owner exists,
      the search returns every row, and dropping the nested operator from each
      entry gives the listing. */
  lemma AllInRangeGivesListing(dist: Distance, q: Query, ops: seq<Operator>, equipment: seq<Equipment>)
    requires forall o :: o in ops ==> WithinRadius(dist, q, o)
    requires forall e :: e in equipment ==> e.operatorId in Ids(ops)
    ensures NearbyEquipmentRecords(dist, q, ops, equipment) == equipment
    ensures |NearbyResults(dist, q, ops, equipment)| == |Listing(equipment)|
    ensures forall i :: 0 <= i < |equipment| ==>
              var r := NearbyResults(dist, q, ops, equipment)[i];
              Listing(equipment)[i] == ListingEntry(r.id, r.name, r.description, r.dailyRate,
                                                    r.weeklyRate, r.monthlyRate, r.availabilityStatus)
  {
    var ids := NearbyOperatorIds(dist, q, ops);
    forall e | e in equipment
      ensures OwnedBy(ids)(e)
    {
      IdsMembership(ops, e.operatorId);
      var o :| o in ops && o.id == e.operatorId;
      NearbyIdsComplete(dist, q, ops, o);
    }
    FilterAll(equipment, OwnedBy(ids));
    NearbyResultsProjection(dist, q, ops, equipment);
  }
}
