/**
 * `DealRepositoryImpl`: an in-memory list of deals, seeded with two, with
 * upsert by id, delete-all by id, first-match lookup and a newest-first
 * listing. The list is the field `deals` of `DealStore`; what each method
 * does to it is given by the functions before the class.
 */
module DealRepository {
  import opened Wrappers
  import opened Domain
  import opened Text
  import opened Seqs

  function MarinaSeed(createdAtMillis: int): Deal {
    Deal("1", "Dubai Marina 2BR", "Dubai Marina", 2, 1200.0, 2200000.0, 160000.0,
         Some(12000.0), Some(3000.0), createdAtMillis)
  }

  function JvcSeed(createdAtMillis: int): Deal {
    Deal("2", "JVC Studio", "JVC", 0, 450.0, 500000.0, 40000.0,
         Some(5000.0), Some(1000.0), createdAtMillis)
  }

  /** The store's invariant: every stored deal has an id. */
  ghost predicate IdsNonEmpty(deals: seq<Deal>) {
    forall i :: 0 <= i < |deals| ==> deals[i].id != ""
  }

  /** `Random.nextInt(100000, 999999)` draws from [100000, 999999). */
  predicate IsIdDraw(n: nat) {
    100000 <= n < 999999
  }

  /** `generateId()`: the decimal text of a draw, six digits. */
  function GenerateId(n: nat): (id: string)
    requires IsIdDraw(n)
    ensures |id| == 6 && IsDigits(id) && DecimalValue(id) == n
  {
    DecimalTextLength(n, 5);
    DecimalRoundTrip(n);
    DecimalText(n)
  }

  /** The test `it.id == id`. */
  function IdIs(id: string): Deal -> bool {
    (d: Deal) => d.id == id
  }

  /** `getDealById`: the first stored deal with that id. */
  function FindById(deals: seq<Deal>, id: string): Option<Deal> {
    FirstOrNone(deals, IdIs(id))
  }

  /** `saveDeal`: replace the first deal with the same id, else append with an empty id replaced. */
  function Upsert(deals: seq<Deal>, deal: Deal, generatedId: string): seq<Deal> {
    var k := IndexOfFirst(deals, IdIs(deal.id));
    if k >= 0 then deals[k := deal]
    else deals + [deal.(id := if deal.id == "" then generatedId else deal.id)]
  }

  /** `deleteDeal`: `removeAll { it.id == id }`. */
  function RemoveAllWithId(deals: seq<Deal>, id: string): seq<Deal> {
    Filter(deals, IdIsNot(id))
  }

  /** The test kept by `removeAll { it.id == id }`. */
  function IdIsNot(id: string): Deal -> bool {
    (d: Deal) => d.id != id
  }

  /** Inserts `d` before the first deal created no later than it. */
  function InsertByNewest(d: Deal, deals: seq<Deal>): seq<Deal> {
    if deals == [] || d.createdAtMillis >= deals[0].createdAtMillis then [d] + deals
    else [deals[0]] + InsertByNewest(d, deals[1..])
  }

  /** `getDeals`: `sortedByDescending { it.createdAtMillis }`, a stable sort. */
  function SortByNewest(deals: seq<Deal>): seq<Deal> {
    if deals == [] then [] else InsertByNewest(deals[0], SortByNewest(deals[1..]))
  }

  ghost predicate NewestFirst(deals: seq<Deal>) {
    forall i, j :: 0 <= i < j < |deals| ==> deals[i].createdAtMillis >= deals[j].createdAtMillis
  }

  /** The deals created at `t`, in their order in `deals`. */
  function CreatedAt(deals: seq<Deal>, t: int): seq<Deal> {
    if deals == [] then []
    else (if deals[0].createdAtMillis == t then [deals[0]] else []) + CreatedAt(deals[1..], t)
  }

  lemma {:induction false} InsertByNewestPermutes(d: Deal, deals: seq<Deal>)
    ensures multiset(InsertByNewest(d, deals)) == multiset(deals) + multiset{d}
  {
    if deals != [] && d.createdAtMillis < deals[0].createdAtMillis {
      InsertByNewestPermutes(d, deals[1..]);
      assert deals == [deals[0]] + deals[1..];
    }
  }

  /** A deal no older than every deal of `tail` and than `d` is no older than any deal of a permutation of them. */
  lemma NewerThanPermutation(head: Deal, d: Deal, tail: seq<Deal>, rest: seq<Deal>)
    requires forall j :: 0 <= j < |tail| ==> head.createdAtMillis >= tail[j].createdAtMillis
    requires head.createdAtMillis >= d.createdAtMillis
    requires multiset(rest) == multiset(tail) + multiset{d}
    ensures forall j :: 0 <= j < |rest| ==> head.createdAtMillis >= rest[j].createdAtMillis
  {
    forall j | 0 <= j < |rest|
      ensures head.createdAtMillis >= rest[j].createdAtMillis
    {
      assert rest[j] in multiset(rest);
      if rest[j] != d {
        assert rest[j] in multiset(tail);
        var k :| 0 <= k < |tail| && tail[k] == rest[j];
      }
    }
  }

  /** Prepending a deal no older than any deal of an ordered list keeps it ordered. */
  lemma PrependNewest(head: Deal, rest: seq<Deal>)
    requires NewestFirst(rest)
    requires forall j :: 0 <= j < |rest| ==> head.createdAtMillis >= rest[j].createdAtMillis
    ensures NewestFirst([head] + rest)
  {
    var r := [head] + rest;
    forall i, j | 0 <= i < j < |r|
      ensures r[i].createdAtMillis >= r[j].createdAtMillis
    {
      assert r[j] == rest[j - 1];
      if i > 0 {
        assert r[i] == rest[i - 1];
      }
    }
  }

  lemma {:induction false} InsertByNewestOrders(d: Deal, deals: seq<Deal>)
    requires NewestFirst(deals)
    ensures NewestFirst(InsertByNewest(d, deals))
  {
    if deals != [] && d.createdAtMillis < deals[0].createdAtMillis {
      var rest := InsertByNewest(d, deals[1..]);
      InsertByNewestOrders(d, deals[1..]);
      InsertByNewestPermutes(d, deals[1..]);
      NewerThanPermutation(deals[0], d, deals[1..], rest);
      PrependNewest(deals[0], rest);
    }
  }

  lemma CreatedAtCons(d: Deal, deals: seq<Deal>, t: int)
    ensures CreatedAt([d] + deals, t) == (if d.createdAtMillis == t then [d] else []) + CreatedAt(deals, t)
  {
    assert ([d] + deals)[1..] == deals;
  }

  lemma {:induction false} InsertByNewestStable(d: Deal, deals: seq<Deal>, t: int)
    ensures CreatedAt(InsertByNewest(d, deals), t)
         == (if d.createdAtMillis == t then [d] else []) + CreatedAt(deals, t)
  {
    if deals == [] || d.createdAtMillis >= deals[0].createdAtMillis {
      CreatedAtCons(d, deals, t);
    } else {
      var head, tail := deals[0], deals[1..];
      var inserted := InsertByNewest(d, tail);
      assert InsertByNewest(d, deals) == [head] + inserted;
      assert deals == [head] + tail;
      var atHead := if head.createdAtMillis == t then [head] else [];
      var atD := if d.createdAtMillis == t then [d] else [];
      InsertByNewestStable(d, tail, t);
      CreatedAtCons(head, inserted, t);
      CreatedAtCons(head, tail, t);
      // head is strictly newer than d, so at most one of them was created at t
      if atD == [] {
        assert atHead + (atD + CreatedAt(tail, t)) == atHead + CreatedAt(tail, t);
      } else {
        assert atHead == [];
      }
    }
  }

  /**
   * The listing is ordered newest first, is a permutation of the store, and
   * keeps deals created at the same instant in their stored order.
   */
  lemma {:induction false} SortByNewestCorrect(deals: seq<Deal>)
    ensures NewestFirst(SortByNewest(deals))
    ensures multiset(SortByNewest(deals)) == multiset(deals)
    ensures forall t :: CreatedAt(SortByNewest(deals), t) == CreatedAt(deals, t)
  {
    if deals != [] {
      SortByNewestCorrect(deals[1..]);
      InsertByNewestOrders(deals[0], SortByNewest(deals[1..]));
      InsertByNewestPermutes(deals[0], SortByNewest(deals[1..]));
      assert deals == [deals[0]] + deals[1..];
      forall t ensures CreatedAt(SortByNewest(deals), t) == CreatedAt(deals, t) {
        InsertByNewestStable(deals[0], SortByNewest(deals[1..]), t);
        CreatedAtCons(deals[0], deals[1..], t);
      }
    }
  }

  /** A deal whose id is already stored replaces the first such entry, at its index. */
  lemma SaveExistingReplacesInPlace(deals: seq<Deal>, deal: Deal, generatedId: string, k: int)
    requires 0 <= k < |deals| && deals[k].id == deal.id
    requires forall j :: 0 <= j < k ==> deals[j].id != deal.id
    ensures var r := Upsert(deals, deal, generatedId);
            && |r| == |deals| && r[k] == deal
            && forall j :: 0 <= j < |deals| && j != k ==> r[j] == deals[j]
  {
    assert IdIs(deal.id)(deals[k]);
  }

  /** A deal whose id is not stored is appended, an empty id replaced by the generated one. */
  lemma SaveNewAppends(deals: seq<Deal>, deal: Deal, generatedId: string)
    requires forall j :: 0 <= j < |deals| ==> deals[j].id != deal.id
    ensures Upsert(deals, deal, generatedId)
         == deals + [deal.(id := if deal.id == "" then generatedId else deal.id)]
  {
  }

  /** Saving keeps every stored id non-empty, given a non-empty generated id. */
  lemma UpsertKeepsIdsNonEmpty(deals: seq<Deal>, deal: Deal, generatedId: string)
    requires IdsNonEmpty(deals) && generatedId != ""
    ensures IdsNonEmpty(Upsert(deals, deal, generatedId))
  {
    var k := IndexOfFirst(deals, IdIs(deal.id));
    if k >= 0 {
      assert IdIs(deal.id)(deals[k]);
    }
  }

  /** After saving a deal that has an id, looking that id up gives exactly that deal. */
  lemma SaveThenFind(deals: seq<Deal>, deal: Deal, generatedId: string)
    requires deal.id != ""
    ensures FindById(Upsert(deals, deal, generatedId), deal.id) == Some(deal)
  {
    var p := IdIs(deal.id);
    var k := IndexOfFirst(deals, p);
    var r := Upsert(deals, deal, generatedId);
    if k >= 0 {
      SaveExistingReplacesInPlace(deals, deal, generatedId, k);
      assert p(r[k]);
    } else {
      SaveNewAppends(deals, deal, generatedId);
      assert p(r[|deals|]);
    }
  }

  /**
   * A deal saved without an id into a valid store is appended under the
   * generated id, and is what that id finds when no older deal has it.
   */
  lemma SaveWithoutIdThenFind(deals: seq<Deal>, deal: Deal, generatedId: string)
    requires IdsNonEmpty(deals) && deal.id == "" && generatedId != ""
    requires forall j :: 0 <= j < |deals| ==> deals[j].id != generatedId
    ensures Upsert(deals, deal, generatedId) == deals + [deal.(id := generatedId)]
    ensures FindById(Upsert(deals, deal, generatedId), generatedId) == Some(deal.(id := generatedId))
  {
    SaveNewAppends(deals, deal, generatedId);
    var saved := deal.(id := generatedId);
    SaveNewAppends(deals, saved, generatedId);
    SaveThenFind(deals, saved, generatedId);
  }

  /**
   * Deleting removes every deal with that id and keeps the others, each as
   * often as before and in their original order; the id then finds nothing.
   */
  lemma DeleteRemovesAll(deals: seq<Deal>, id: string)
    ensures var r := RemoveAllWithId(deals, id);
            && IsSubsequence(r, deals)
            && (forall i :: 0 <= i < |r| ==> r[i].id != id)
            && (forall i :: 0 <= i < |deals| && deals[i].id != id ==>
                  multiset(r)[deals[i]] == multiset(deals)[deals[i]])
            && FindById(r, id) == None
  {
    FilterKeepsMultiplicity(deals, IdIsNot(id));
  }

  /** Deleting an id that is not stored changes nothing. */
  lemma DeleteAbsentIsNoOp(deals: seq<Deal>, id: string)
    requires FindById(deals, id) == None
    ensures RemoveAllWithId(deals, id) == deals
  {
    forall i | 0 <= i < |deals|
      ensures IdIsNot(id)(deals[i])
    {
      assert !IdIs(id)(deals[i]);
    }
    FilterKeepsAll(deals, IdIsNot(id));
  }

  /** Deleting keeps every stored id non-empty. */
  lemma DeleteKeepsIdsNonEmpty(deals: seq<Deal>, id: string)
    requires IdsNonEmpty(deals)
    ensures IdsNonEmpty(RemoveAllWithId(deals, id))
  {
    var r := RemoveAllWithId(deals, id);
    forall i | 0 <= i < |r|
      ensures r[i].id != ""
    {
      assert r[i] in multiset(deals);
    }
  }

  /** The store itself: `DealRepositoryImpl`. */
  class DealStore {
    var deals: seq<Deal>

    ghost predicate Valid()
      reads this
    {
      IdsNonEmpty(deals)
    }

    /** The two seeds, each stamped with the clock reading taken when it was built. */
    constructor (seedTime1: int, seedTime2: int)
      ensures Valid()
      ensures deals == [MarinaSeed(seedTime1), JvcSeed(seedTime2)]
    {
      deals := [MarinaSeed(seedTime1), JvcSeed(seedTime2)];
    }

    method GetDeals() returns (r: seq<Deal>)
      ensures r == SortByNewest(deals)
      ensures NewestFirst(r) && multiset(r) == multiset(deals)
      ensures forall t :: CreatedAt(r, t) == CreatedAt(deals, t)
    {
      r := SortByNewest(deals);
      SortByNewestCorrect(deals);
    }

    method GetDealById(id: string) returns (r: Option<Deal>)
      ensures r == FindById(deals, id)
      ensures r.Some? ==> r.value.id == id && r.value in deals
      ensures r.None? <==> forall i :: 0 <= i < |deals| ==> deals[i].id != id
    {
      r := FindById(deals, id);
      var k := IndexOfFirst(deals, IdIs(id));
      if k >= 0 {
        assert IdIs(id)(deals[k]);
      } else {
        assert forall i :: 0 <= i < |deals| ==> !IdIs(id)(deals[i]);
      }
    }

    /** `saveDeal`; `draw` is the value `Random.nextInt` gives when an id has to be generated. */
    method SaveDeal(deal: Deal, draw: nat)
      requires Valid() && IsIdDraw(draw)
      modifies this
      ensures Valid()
      ensures deals == Upsert(old(deals), deal, GenerateId(draw))
    {
      UpsertKeepsIdsNonEmpty(deals, deal, GenerateId(draw));
      var k := IndexOfFirst(deals, IdIs(deal.id));
      if k >= 0 {
        deals := deals[k := deal];
      } else {
        var newDeal := deal.(id := if deal.id == "" then GenerateId(draw) else deal.id);
        deals := deals + [newDeal];
      }
    }

    method DeleteDeal(id: string)
      requires Valid()
      modifies this
      ensures Valid()
      ensures deals == RemoveAllWithId(old(deals), id)
    {
      DeleteKeepsIdsNonEmpty(deals, id);
      deals := RemoveAllWithId(deals, id);
    }
  }
}
