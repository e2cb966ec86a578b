/**
 * The application-wide points ledger: a running total held in memory and
 * mirrored, as decimal text, under the local-storage key `totalPoints`.
 * Local storage is the map field `storage`; reading it back on mount is
 * `LoadFromStorage`.
 */
module PointsContext {

  import opened Wrappers
  import opened JsNumber

  const TotalKey: string := "totalPoints"

  /** The message `usePoints` throws outside a provider. */
  const NoProviderMessage: string := "usePoints must be used within a PointsProvider"

  /** The total that loading would produce from `storage`: `parseInt` of a present, non-empty entry, else 0. */
  function StoredTotal(storage: map<string, string>): Num
  {
    if TotalKey in storage && storage[TotalKey] != "" then ParseInt(storage[TotalKey]) else Int(0)
  }

  /** The total after `addPoints` is called once with each amount of `ps`, in order. */
  function AddAll(total: Num, ps: seq<int>): Num
    decreases |ps|
  {
    if ps == [] then total else AddAll(Plus(total, ps[0]), ps[1..])
  }

  function Sum(ps: seq<int>): int
    decreases |ps|
  {
    if ps == [] then 0 else ps[0] + Sum(ps[1..])
  }

  /** A sequence of `addPoints` calls adds the sum of their amounts (and keeps NaN as NaN). */
  lemma {:induction false} AddAllIsSum(total: Num, ps: seq<int>)
    ensures AddAll(total, ps) == Plus(total, Sum(ps))
    decreases |ps|
  {
    if ps != [] {
      AddAllIsSum(Plus(total, ps[0]), ps[1..]);
    }
  }

  /** After `addPoints` wrote the new total, a reload reads that total back. */
  lemma StoredTotalAfterWrite(storage: map<string, string>, total: Num)
    ensures StoredTotal(storage[TotalKey := ToText(total)]) == total
  {
    ParseIntToText(total);
    assert ToText(total) != "" by {
      if total.Int? {
        var m: nat := if total.value < 0 then -total.value else total.value;
        NatToTextDigits(m);
      }
    }
  }

  class PointsLedger {
    var totalPoints: Num
    var loading: bool
    var storage: map<string, string>

    /** The storage entry, read back the way loading reads it, equals the in-memory total. */
    predicate Mirrored()
      reads this
    {
      StoredTotal(storage) == totalPoints
    }

    /** A freshly mounted provider: total 0, still loading, over the given storage. */
    constructor (initialStorage: map<string, string>)
      ensures totalPoints == Int(0) && loading && storage == initialStorage
    {
      totalPoints := Int(0);
      loading := true;
      storage := initialStorage;
    }

    /** The mount effect: take `parseInt` of a present, non-empty stored value, then stop loading. */
    method LoadFromStorage()
      modifies this
      ensures storage == old(storage) && !loading
      ensures TotalKey in storage && storage[TotalKey] != "" ==> totalPoints == ParseInt(storage[TotalKey])
      ensures !(TotalKey in storage && storage[TotalKey] != "") ==> totalPoints == old(totalPoints)
      ensures old(totalPoints) == Int(0) ==> Mirrored()
    {
      if TotalKey in storage && storage[TotalKey] != "" {
        totalPoints := ParseInt(storage[TotalKey]);
      }
      loading := false;
    }

    /** `addPoints(points)`: add to the total and persist the new total as decimal text. */
    method AddPoints(points: int)
      modifies this
      ensures totalPoints == Plus(old(totalPoints), points)
      ensures storage == old(storage)[TotalKey := ToText(totalPoints)]
      ensures loading == old(loading)
      ensures Mirrored()
    {
      var newTotal := Plus(totalPoints, points);
      var written := storage[TotalKey := ToText(newTotal)];
      StoredTotalAfterWrite(storage, newTotal);
      storage := written;
      totalPoints := newTotal;
    }

    /** `resetPoints()`: total back to 0 and the stored key removed. */
    method ResetPoints()
      modifies this
      ensures totalPoints == Int(0)
      ensures storage == old(storage) - {TotalKey} && TotalKey !in storage
      ensures loading == old(loading)
      ensures Mirrored()
    {
      totalPoints := Int(0);
      storage := storage - {TotalKey};
    }
  }

  /** `usePoints()`: the provider's ledger, or the error it throws when there is no provider. */
  function UsePoints(context: Option<PointsLedger>): (r: Result<PointsLedger, string>)
    ensures r.Failure? <==> context.None?
    ensures r.Failure? ==> r.error == NoProviderMessage
    ensures r.Success? ==> context == Some(r.value)
  {
    match context
    case None => Failure(NoProviderMessage)
    case Some(ledger) => Success(ledger)
  }
}
