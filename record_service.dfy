/** The rate-rule service of the country-scoped plugin: the repository table
    with its insert/update/delete, the lookup by id, the listing ordered by
    (CountryId, ShippingMethodId, From) and the rule matcher. */
module RecordService {
  import opened Wrappers
  import opened Domain

  // ----- the listing order -----

  /** The order of the service's queries: by country, then shipping method,
      then the start of the subtotal range. */
  predicate KeyLe(a: Record, b: Record) {
    || a.countryId < b.countryId
    || (a.countryId == b.countryId && a.shippingMethodId < b.shippingMethodId)
    || (a.countryId == b.countryId && a.shippingMethodId == b.shippingMethodId && a.from <= b.from)
  }

  predicate SortedByKey(s: seq<Record>) {
    forall i, j :: 0 <= i < j < |s| ==> KeyLe(s[i], s[j])
  }

  /** A sorted sequence stays sorted when an element no greater than any of
      its elements is put in front. */
  lemma SortedCons(a: Record, s: seq<Record>)
    requires SortedByKey(s)
    requires forall k :: 0 <= k < |s| ==> KeyLe(a, s[k])
    ensures SortedByKey([a] + s)
  {
    forall i, j | 0 <= i < j < |[a] + s| ensures KeyLe(([a] + s)[i], ([a] + s)[j]) {
      if i > 0 {
        assert ([a] + s)[i] == s[i - 1] && ([a] + s)[j] == s[j - 1];
      } else {
        assert ([a] + s)[j] == s[j - 1];
      }
    }
  }

  /** Inserts `x` into a sorted sequence, before the first element it does
      not follow. */
  function InsertByKey(x: Record, s: seq<Record>): (r: seq<Record>)
    requires SortedByKey(s)
    ensures SortedByKey(r)
    ensures multiset(r) == multiset(s) + multiset{x}
  {
    if s == [] || KeyLe(x, s[0]) then
      SortedCons(x, s);
      [x] + s
    else
      var rest := InsertByKey(x, s[1..]);
      assert SortedByKey(s[1..]);
      forall k | 0 <= k < |rest| ensures KeyLe(s[0], rest[k]) {
        assert rest[k] in multiset(s[1..]) + multiset{x};
        if rest[k] != x {
          assert rest[k] in s[1..];
        }
      }
      SortedCons(s[0], rest);
      assert s == [s[0]] + s[1..];
      [s[0]] + rest
  }

  /** The `orderby CountryId, ShippingMethodId, From` of the service's
      queries, as a stable insertion sort: the same records, sorted. */
  function OrderByKey(s: seq<Record>): (r: seq<Record>)
    ensures SortedByKey(r)
    ensures multiset(r) == multiset(s)
  {
    if s == [] then []
    else
      assert s == [s[0]] + s[1..];
      InsertByKey(s[0], OrderByKey(s[1..]))
  }

  // ----- the matcher -----

  /** The query filter: the rule prices the method and its inclusive range
      [From, To] holds the subtotal. */
  predicate InRange(r: Record, shippingMethodId: int, subtotal: real) {
    r.shippingMethodId == shippingMethodId && subtotal >= r.from && subtotal <= r.to
  }

  /** The rows that pass the query filter, in table order. */
  function Candidates(rows: seq<Record>, shippingMethodId: int, subtotal: real): (c: seq<Record>)
    ensures forall x :: x in c <==> x in rows && InRange(x, shippingMethodId, subtotal)
  {
    if rows == [] then []
    else
      var rest := Candidates(rows[1..], shippingMethodId, subtotal);
      assert forall x :: x in rows <==> x == rows[0] || x in rows[1..];
      if InRange(rows[0], shippingMethodId, subtotal) then [rows[0]] + rest else rest
  }

  /** Index of the first record of country `countryId`, or |s| when none. */
  function FirstIndexOfCountry(s: seq<Record>, countryId: int): (i: nat)
    ensures i <= |s|
    ensures forall k :: 0 <= k < i ==> s[k].countryId != countryId
    ensures i < |s| ==> s[i].countryId == countryId
  {
    if s == [] then 0
    else if s[0].countryId == countryId then 0
    else 1 + FirstIndexOfCountry(s[1..], countryId)
  }

  /** One `foreach` pass of the matcher: the first record of that country. */
  function FirstOfCountry(s: seq<Record>, countryId: int): Option<Record> {
    var i := FirstIndexOfCountry(s, countryId);
    if i < |s| then Some(s[i]) else None
  }

  /** The ordered candidate list the matcher scans. */
  function ExistingRecords(rows: seq<Record>, shippingMethodId: int, subtotal: real): seq<Record> {
    OrderByKey(Candidates(rows, shippingMethodId, subtotal))
  }

  /** FindShippingByTotalRecord: among the ordered candidates, the first of
      the requested country, else the first wildcard (country 0), else none. */
  function FindRecord(rows: seq<Record>, shippingMethodId: int, countryId: int, subtotal: real): (found: Option<Record>)
    // a match is one of the ordered candidates, of the requested country or the wildcard 0, never another
    ensures found.Some? ==> found.value in ExistingRecords(rows, shippingMethodId, subtotal)
    ensures found.Some? ==> found.value.countryId == countryId || found.value.countryId == 0
    // a wildcard is returned only when no candidate has the requested country
    ensures found.Some? && found.value.countryId != countryId
            ==> forall x :: x in ExistingRecords(rows, shippingMethodId, subtotal) ==> x.countryId != countryId
  {
    var existing := ExistingRecords(rows, shippingMethodId, subtotal);
    match FirstOfCountry(existing, countryId)
    case Some(r) => Some(r)
    case None => FirstOfCountry(existing, 0)
  }

  /** The ordered candidates are exactly the table rows that pass the filter. */
  lemma ExistingRecordsMembers(rows: seq<Record>, shippingMethodId: int, subtotal: real, x: Record)
    ensures x in ExistingRecords(rows, shippingMethodId, subtotal) <==> x in rows && InRange(x, shippingMethodId, subtotal)
  {
    var c := Candidates(rows, shippingMethodId, subtotal);
    var e := OrderByKey(c);
    assert x in e <==> x in multiset(e);
    assert x in c <==> x in multiset(c);
  }

  /** A matched rule is a table row that prices the requested method and
      whose range holds the subtotal. */
  lemma FoundIsInRange(rows: seq<Record>, shippingMethodId: int, countryId: int, subtotal: real)
    ensures var found := FindRecord(rows, shippingMethodId, countryId, subtotal);
            found.Some? ==> found.value in rows && InRange(found.value, shippingMethodId, subtotal)
  {
    var found := FindRecord(rows, shippingMethodId, countryId, subtotal);
    if found.Some? {
      ExistingRecordsMembers(rows, shippingMethodId, subtotal, found.value);
    }
  }

  /** An exact-country rule beats a wildcard: when some in-range rule of the
      method has the requested country, the match has that country. */
  lemma ExactCountryWins(rows: seq<Record>, shippingMethodId: int, countryId: int, subtotal: real, x: Record)
    requires x in rows && InRange(x, shippingMethodId, subtotal) && x.countryId == countryId
    ensures var found := FindRecord(rows, shippingMethodId, countryId, subtotal);
            found.Some? && found.value.countryId == countryId
  {
    var existing := ExistingRecords(rows, shippingMethodId, subtotal);
    ExistingRecordsMembers(rows, shippingMethodId, subtotal, x);
    var k :| 0 <= k < |existing| && existing[k] == x;
    assert FirstIndexOfCountry(existing, countryId) <= k;
  }

  /** No in-range rule of the method has the requested country or the
      wildcard 0. */
  predicate NoRuleFor(rows: seq<Record>, shippingMethodId: int, countryId: int, subtotal: real) {
    forall x :: x in rows && InRange(x, shippingMethodId, subtotal) ==> x.countryId != countryId && x.countryId != 0
  }

  /** The matcher finds nothing exactly when no in-range rule of the method
      has the requested country or the wildcard 0. */
  lemma NoneIffNoCandidate(rows: seq<Record>, shippingMethodId: int, countryId: int, subtotal: real)
    ensures FindRecord(rows, shippingMethodId, countryId, subtotal).None? <==> NoRuleFor(rows, shippingMethodId, countryId, subtotal)
  {
    var existing := ExistingRecords(rows, shippingMethodId, subtotal);
    if FindRecord(rows, shippingMethodId, countryId, subtotal).None? {
      forall x | x in rows && InRange(x, shippingMethodId, subtotal)
        ensures x.countryId != countryId && x.countryId != 0
      {
        ExistingRecordsMembers(rows, shippingMethodId, subtotal, x);
        var k :| 0 <= k < |existing| && existing[k] == x;
        assert FirstIndexOfCountry(existing, countryId) == |existing|;
        assert FirstIndexOfCountry(existing, 0) == |existing|;
      }
    } else {
      FoundIsInRange(rows, shippingMethodId, countryId, subtotal);
    }
  }

  /** Within the winning country tier the match has the smallest From of all
      in-range rules of that country, because the candidates are sorted. */
  lemma FoundHasSmallestFrom(rows: seq<Record>, shippingMethodId: int, countryId: int, subtotal: real, x: Record)
    requires x in rows && InRange(x, shippingMethodId, subtotal)
    requires FindRecord(rows, shippingMethodId, countryId, subtotal).Some?
    requires x.countryId == FindRecord(rows, shippingMethodId, countryId, subtotal).value.countryId
    ensures FindRecord(rows, shippingMethodId, countryId, subtotal).value.from <= x.from
  {
    var existing := ExistingRecords(rows, shippingMethodId, subtotal);
    var found := FindRecord(rows, shippingMethodId, countryId, subtotal).value;
    ExistingRecordsMembers(rows, shippingMethodId, subtotal, x);
    ExistingRecordsMembers(rows, shippingMethodId, subtotal, found);
    var k :| 0 <= k < |existing| && existing[k] == x;
    var tier := if FirstOfCountry(existing, countryId).Some? then countryId else 0;
    var i := FirstIndexOfCountry(existing, tier);
    assert existing[i] == found;
    assert i <= k;
    if i < k {
      assert KeyLe(existing[i], existing[k]);
    }
  }

  // ----- the repository table -----

  /** Lookup of a row by its identifier. */
  function Lookup(rows: seq<Record>, id: int): (r: Option<Record>)
    ensures r.Some? ==> r.value in rows && r.value.id == id
    ensures r.None? ==> forall x :: x in rows ==> x.id != id
  {
    if rows == [] then None
    else if rows[0].id == id then Some(rows[0])
    else Lookup(rows[1..], id)
  }

  /** The table after the row with `record`'s identifier is overwritten. */
  function ReplaceById(rows: seq<Record>, record: Record): (r: seq<Record>)
    ensures |r| == |rows|
    ensures forall i :: 0 <= i < |rows| ==> r[i] == if rows[i].id == record.id then record else rows[i]
  {
    if rows == [] then []
    else [if rows[0].id == record.id then record else rows[0]] + ReplaceById(rows[1..], record)
  }

  /** The table after the rows with identifier `id` are deleted. */
  function RemoveById(rows: seq<Record>, id: int): (r: seq<Record>)
    ensures forall x :: x in r <==> x in rows && x.id != id
  {
    if rows == [] then []
    else
      assert forall x :: x in rows <==> x == rows[0] || x in rows[1..];
      (if rows[0].id == id then [] else [rows[0]]) + RemoveById(rows[1..], id)
  }

  /** Identity-column discipline: every identifier is positive, below the
      next one to be issued, and used once. */
  predicate IdsValid(rows: seq<Record>, nextId: int) {
    && nextId > 0
    && (forall i :: 0 <= i < |rows| ==> 0 < rows[i].id < nextId)
    && (forall i, j :: 0 <= i < j < |rows| ==> rows[i].id != rows[j].id)
  }

  /** Deleting a present row leaves every other row, and only one row goes. */
  lemma {:induction false} RemovePresentId(rows: seq<Record>, nextId: int, id: int)
    requires IdsValid(rows, nextId)
    requires Lookup(rows, id).Some?
    ensures |RemoveById(rows, id)| == |rows| - 1
  {
    if rows[0].id == id {
      assert forall x :: x in rows[1..] ==> x.id != id;
      RemoveAbsentId(rows[1..], id);
    } else {
      assert IdsValid(rows[1..], nextId);
      RemovePresentId(rows[1..], nextId, id);
    }
  }

  /** Deleting an identifier that is not there changes nothing. */
  lemma {:induction false} RemoveAbsentId(rows: seq<Record>, id: int)
    requires forall x :: x in rows ==> x.id != id
    ensures RemoveById(rows, id) == rows
  {
    if rows != [] {
      assert rows[0] in rows;
      RemoveAbsentId(rows[1..], id);
    }
  }

  /** Deleting keeps the remaining rows in their table order. */
  lemma {:induction false} RemoveKeepsOrder(rows: seq<Record>, id: int, more: seq<Record>)
    ensures RemoveById(rows + more, id) == RemoveById(rows, id) + RemoveById(more, id)
  {
    if rows == [] {
      assert rows + more == more;
    } else {
      assert (rows + more)[0] == rows[0];
      assert (rows + more)[1..] == rows[1..] + more;
      RemoveKeepsOrder(rows[1..], id, more);
    }
  }

  lemma RemoveKeepsIds(rows: seq<Record>, nextId: int, id: int)
    requires IdsValid(rows, nextId)
    ensures IdsValid(RemoveById(rows, id), nextId)
  {
    var r := RemoveById(rows, id);
    if rows != [] {
      assert IdsValid(rows[1..], nextId);
      RemoveKeepsIds(rows[1..], nextId, id);
      var tail := RemoveById(rows[1..], id);
      assert forall x :: x in tail ==> x in rows[1..];
      forall j | 0 <= j < |tail| ensures tail[j].id != rows[0].id {
        assert tail[j] in rows[1..];
      }
    }
  }

  /** GetShippingByTotalRecordById: identifier 0 never finds a row. */
  function RecordById(rows: seq<Record>, id: int): (r: Option<Record>)
    ensures id == 0 ==> r.None?
    ensures r.Some? ==> r.value in rows && r.value.id == id
    ensures id != 0 && (exists x :: x in rows && x.id == id) ==> r.Some?
  {
    if id == 0 then None else Lookup(rows, id)
  }

  /** After an update the row with that identifier is the new record, and
      every other identifier finds what it found before. */
  lemma {:induction false} LookupAfterReplace(rows: seq<Record>, record: Record, id: int)
    ensures Lookup(ReplaceById(rows, record), id)
            == if id == record.id && Lookup(rows, id).Some? then Some(record) else Lookup(rows, id)
  {
    if rows != [] {
      var r := ReplaceById(rows, record);
      assert r == [r[0]] + ReplaceById(rows[1..], record);
      LookupAfterReplace(rows[1..], record, id);
    }
  }

  /** After an insert the new identifier finds the inserted record, and every
      other identifier finds what it found before. */
  lemma {:induction false} LookupAfterAppend(rows: seq<Record>, record: Record, id: int)
    requires forall x :: x in rows ==> x.id != record.id
    ensures Lookup(rows + [record], id) == if id == record.id then Some(record) else Lookup(rows, id)
  {
    if rows == [] {
      assert rows + [record] == [record];
    } else {
      assert (rows + [record])[0] == rows[0];
      assert (rows + [record])[1..] == rows[1..] + [record];
      assert rows[0] in rows;
      LookupAfterAppend(rows[1..], record, id);
    }
  }

  /** After a delete the identifier finds nothing, and every other identifier
      finds what it found before. */
  lemma {:induction false} LookupAfterRemove(rows: seq<Record>, deleted: int, id: int)
    ensures Lookup(RemoveById(rows, deleted), id) == if id == deleted then None else Lookup(rows, id)
  {
    if rows != [] {
      var rest := RemoveById(rows[1..], deleted);
      if rows[0].id != deleted {
        assert RemoveById(rows, deleted) == [rows[0]] + rest;
        assert ([rows[0]] + rest)[1..] == rest;
      } else {
        assert RemoveById(rows, deleted) == rest;
      }
      LookupAfterRemove(rows[1..], deleted, id);
    }
  }

  // ----- the service -----

  /** ShippingByTotalService over its repository table. */
  class ShippingByTotalService {
    /** The repository table in storage order. */
    var rows: seq<Record>
    /** The identifier the database issues to the next inserted row. */
    var nextId: int

    ghost predicate Valid()
      reads this
    {
      IdsValid(rows, nextId)
    }

    constructor (rows: seq<Record>, nextId: int)
      requires IdsValid(rows, nextId)
      ensures Valid() && this.rows == rows && this.nextId == nextId
    {
      this.rows := rows;
      this.nextId := nextId;
    }

    /** GetAllShippingByTotalRecords: every row, in the listing order. */
    method GetAllShippingByTotalRecords() returns (records: seq<Record>)
      ensures SortedByKey(records) && multiset(records) == multiset(rows)
    {
      records := OrderByKey(rows);
    }

    /** GetShippingByTotalRecordById: identifier 0 is answered with null
        before the table is consulted. */
    method GetShippingByTotalRecordById(shippingByTotalRecordId: int) returns (record: Option<Record>)
      ensures shippingByTotalRecordId == 0 ==> record.None?
      ensures shippingByTotalRecordId != 0 ==> record == Lookup(rows, shippingByTotalRecordId)
    {
      if shippingByTotalRecordId == 0 {
        return None;
      }
      record := Lookup(rows, shippingByTotalRecordId);
    }

    /** FindShippingByTotalRecord: two passes over the ordered candidates. */
    method FindShippingByTotalRecord(shippingMethodId: int, countryId: int, subtotal: real) returns (found: Option<Record>)
      ensures found == FindRecord(rows, shippingMethodId, countryId, subtotal)
    {
      var existingRecords := OrderByKey(Candidates(rows, shippingMethodId, subtotal));

      // filter by country
      var i := 0;
      while i < |existingRecords|
        invariant 0 <= i <= |existingRecords|
        invariant forall k :: 0 <= k < i ==> existingRecords[k].countryId != countryId
      {
        if existingRecords[i].countryId == countryId {
          return Some(existingRecords[i]);
        }
        i := i + 1;
      }

      i := 0;
      while i < |existingRecords|
        invariant 0 <= i <= |existingRecords|
        invariant forall k :: 0 <= k < i ==> existingRecords[k].countryId != 0
      {
        if existingRecords[i].countryId == 0 {
          return Some(existingRecords[i]);
        }
        i := i + 1;
      }

      return None;
    }

    /** DeleteShippingByTotalRecord: null is rejected; otherwise the row with
        the record's identifier leaves the table and the others stay. */
    method DeleteShippingByTotalRecord(record: Option<Record>) returns (status: Status)
      requires Valid()
      modifies this
      ensures Valid() && nextId == old(nextId)
      ensures record.None? ==> status == ArgumentNullThrown && rows == old(rows)
      ensures record.Some? ==> status == Done && rows == RemoveById(old(rows), record.value.id)
    {
      if record.None? {
        return ArgumentNullThrown;
      }
      RemoveKeepsIds(rows, nextId, record.value.id);
      rows := RemoveById(rows, record.value.id);
      return Done;
    }

    /** InsertShippingByTotalRecord: null is rejected; otherwise the record is
        appended under the identifier the database issues. */
    method InsertShippingByTotalRecord(record: Option<Record>) returns (status: Status)
      requires Valid()
      modifies this
      ensures Valid()
      ensures record.None? ==> status == ArgumentNullThrown && rows == old(rows) && nextId == old(nextId)
      ensures record.Some? ==> status == Done && rows == old(rows) + [record.value.(id := old(nextId))]
                               && nextId == old(nextId) + 1
    {
      if record.None? {
        return ArgumentNullThrown;
      }
      rows := rows + [record.value.(id := nextId)];
      assert forall i :: 0 <= i < |rows| - 1 ==> rows[i] == old(rows)[i];
      nextId := nextId + 1;
      return Done;
    }

    /** UpdateShippingByTotalRecord: null is rejected; otherwise the row with
        the record's identifier is overwritten by it. */
    method UpdateShippingByTotalRecord(record: Option<Record>) returns (status: Status)
      requires Valid()
      modifies this
      ensures Valid() && nextId == old(nextId)
      ensures record.None? ==> status == ArgumentNullThrown && rows == old(rows)
      ensures record.Some? ==> status == Done && rows == ReplaceById(old(rows), record.value)
    {
      if record.None? {
        return ArgumentNullThrown;
      }
      rows := ReplaceById(rows, record.value);
      return Done;
    }
  }
}
