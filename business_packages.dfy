/**
 * `useBusinessPackages` (entities/food-package/hooks/use-business-packages.ts):
 * the package list of one business, loaded once and then kept in step with
 * the backend's realtime INSERT / UPDATE / DELETE feed, plus the loading,
 * refreshing and error flags. The list edits are pure functions of the
 * previous list; the hook's state is a class whose methods are its setters.
 */
module BusinessPackages {
  import opened Wrappers
  import opened FoodPackages

  /**
   * An element of the list. Fetched and inserted packages have been through
   * `fromFoodPackageDto`; an UPDATE stores the incoming row as it arrived.
   */
  datatype PackageEntry = Transformed(pkg: FoodPackage) | Raw(row: FoodPackageDto) {
    function Id(): string {
      match this
      case Transformed(p) => p.id
      case Raw(d) => d.id
    }
  }

  /** A realtime change on the business's `food_packages` rows. */
  datatype ChangeEvent = Insert(newRow: FoodPackageDto) | Update(newRow: FoodPackageDto) | Delete(oldId: string)

  /** The INSERT window test: stock left, not sold out, both bounds set and valid, and `now` inside them. */
  predicate OnSaleAt(p: FoodPackage, now: int) {
    && p.availableQuantity > 0
    && !p.soldOut
    && p.availabilityStart.Some? && p.availabilityStart.value.Date?
    && p.availabilityEnd.Some? && p.availabilityEnd.value.Date?
    && p.availabilityStart.value.ms <= now <= p.availabilityEnd.value.ms
  }

  /** Whether an inserted package joins the list. */
  predicate Admitted(p: FoodPackage, includeUnavailable: bool, now: int) {
    includeUnavailable || OnSaleAt(p, now)
  }

  /** INSERT: an admitted package goes to the front; nothing is deduplicated. */
  function InsertPackage(prev: seq<PackageEntry>, p: FoodPackage, includeUnavailable: bool, now: int): (r: seq<PackageEntry>)
    ensures |r| == |prev| + (if Admitted(p, includeUnavailable, now) then 1 else 0)
    ensures r[|r| - |prev|..] == prev
    ensures Admitted(p, includeUnavailable, now) ==> r[0] == Transformed(p)
  {
    if Admitted(p, includeUnavailable, now) then [Transformed(p)] + prev else prev
  }

  /** UPDATE: every entry with the row's id becomes the raw row; the rest stay where they are. */
  function UpdateById(prev: seq<PackageEntry>, row: FoodPackageDto): (r: seq<PackageEntry>)
    ensures |r| == |prev|
    ensures forall i :: 0 <= i < |prev| ==> r[i] == if prev[i].Id() == row.id then Raw(row) else prev[i]
  {
    if prev == [] then []
    else [if prev[0].Id() == row.id then Raw(row) else prev[0]] + UpdateById(prev[1..], row)
  }

  /** DELETE: drop every entry with the given id. */
  function DeleteById(prev: seq<PackageEntry>, id: string): (r: seq<PackageEntry>)
    ensures |r| <= |prev|
    ensures forall e :: e in r <==> e in prev && e.Id() != id
  {
    if prev == [] then []
    else (if prev[0].Id() == id then [] else [prev[0]]) + DeleteById(prev[1..], id)
  }

  /** The realtime handler: the row is transformed first, then the event's edit is applied. */
  function ApplyChange(prev: seq<PackageEntry>, event: ChangeEvent, includeUnavailable: bool, now: int, parse: string -> Option<int>): (r: seq<PackageEntry>)
    ensures event.Insert? ==> r == InsertPackage(prev, FromFoodPackageDto(event.newRow, parse), includeUnavailable, now)
    ensures event.Update? ==> r == UpdateById(prev, event.newRow)
    ensures event.Delete? ==> r == DeleteById(prev, event.oldId)
    ensures event.Insert? ==> |prev| <= |r| <= |prev| + 1 && r[|r| - |prev|..] == prev
    ensures event.Update? ==> |r| == |prev| && forall i :: 0 <= i < |prev| && prev[i].Id() != event.newRow.id ==> r[i] == prev[i]
    ensures event.Delete? ==> |r| <= |prev| && forall e :: e in r ==> e in prev && e.Id() != event.oldId
  {
    match event
    case Insert(row) => InsertPackage(prev, FromFoodPackageDto(row, parse), includeUnavailable, now)
    case Update(row) => UpdateById(prev, row)
    case Delete(id) => DeleteById(prev, id)
  }

  /** A fetched list as the hook stores it. */
  function Entries(ps: seq<FoodPackage>): (r: seq<PackageEntry>)
    ensures |r| == |ps| && forall i :: 0 <= i < |ps| ==> r[i] == Transformed(ps[i])
  {
    if ps == [] then [] else [Transformed(ps[0])] + Entries(ps[1..])
  }

  /** Number of entries with the given id. */
  function CountId(s: seq<PackageEntry>, id: string): nat {
    if s == [] then 0 else (if s[0].Id() == id then 1 else 0) + CountId(s[1..], id)
  }

  /** With `includeUnavailable`, every INSERT puts its transformed package at index 0. */
  lemma InsertAlwaysWhenIncludingUnavailable(prev: seq<PackageEntry>, row: FoodPackageDto, now: int, parse: string -> Option<int>)
    ensures ApplyChange(prev, Insert(row), true, now, parse) == [Transformed(FromFoodPackageDto(row, parse))] + prev
  {
  }

  /**
   * Without `includeUnavailable`, an INSERT changes the list exactly when the
   * row has stock, is not sold out, has both window bounds set to text that
   * parses, and `now` lies inside the window.
   */
  lemma InsertGuard(prev: seq<PackageEntry>, row: FoodPackageDto, now: int, parse: string -> Option<int>)
    ensures var r := ApplyChange(prev, Insert(row), false, now, parse);
      (r != prev <==>
        && row.availableQuantity > 0
        && row.soldOut != Some(true)
        && !Falsy(row.availabilityStart) && parse(row.availabilityStart.value).Some?
        && !Falsy(row.availabilityEnd) && parse(row.availabilityEnd.value).Some?
        && parse(row.availabilityStart.value).value <= now <= parse(row.availabilityEnd.value).value)
    ensures var r := ApplyChange(prev, Insert(row), false, now, parse);
      r != prev ==> r == [Transformed(FromFoodPackageDto(row, parse))] + prev
  {
  }

  /** An INSERT of an id already listed adds a second entry and keeps the old one. */
  lemma {:induction false} InsertKeepsDuplicates(prev: seq<PackageEntry>, row: FoodPackageDto, includeUnavailable: bool, now: int, parse: string -> Option<int>)
    requires exists e :: e in prev && e.Id() == row.id
    requires Admitted(FromFoodPackageDto(row, parse), includeUnavailable, now)
    ensures var r := ApplyChange(prev, Insert(row), includeUnavailable, now, parse);
      |r| == |prev| + 1 && CountId(r, row.id) == CountId(prev, row.id) + 1 && CountId(r, row.id) >= 2
      && forall i :: 0 <= i < |prev| ==> r[i + 1] == prev[i]
  {
    var r := ApplyChange(prev, Insert(row), includeUnavailable, now, parse);
    assert r[1..] == prev;
    var e :| e in prev && e.Id() == row.id;
    CountIdPositive(prev, e, row.id);
  }

  lemma {:induction false} CountIdPositive(s: seq<PackageEntry>, e: PackageEntry, id: string)
    requires e in s && e.Id() == id
    ensures CountId(s, id) >= 1
    decreases |s|
  {
    if s[0] != e {
      CountIdPositive(s[1..], e, id);
    }
  }

  /** Applying the same UPDATE twice is the same as applying it once. */
  lemma UpdateIdempotent(prev: seq<PackageEntry>, row: FoodPackageDto)
    ensures UpdateById(UpdateById(prev, row), row) == UpdateById(prev, row)
  {
  }

  /** DELETE keeps the relative order of what remains: it acts on each part of a list separately. */
  lemma {:induction false} DeleteDistributes(a: seq<PackageEntry>, b: seq<PackageEntry>, id: string)
    ensures DeleteById(a + b, id) == DeleteById(a, id) + DeleteById(b, id)
    decreases |a|
  {
    if a != [] {
      assert (a + b)[1..] == a[1..] + b;
      DeleteDistributes(a[1..], b, id);
    } else {
      assert a + b == b;
    }
  }

  /** DELETE removes exactly the entries with the id: the length drops by their number. */
  lemma {:induction false} DeleteCount(prev: seq<PackageEntry>, id: string)
    ensures |DeleteById(prev, id)| == |prev| - CountId(prev, id)
    ensures CountId(DeleteById(prev, id), id) == 0
    decreases |prev|
  {
    if prev != [] {
      DeleteCount(prev[1..], id);
      CountIdAppend(if prev[0].Id() == id then [] else [prev[0]], DeleteById(prev[1..], id), id);
    }
  }

  lemma {:induction false} CountIdAppend(a: seq<PackageEntry>, b: seq<PackageEntry>, id: string)
    ensures CountId(a + b, id) == CountId(a, id) + CountId(b, id)
    decreases |a|
  {
    if a != [] {
      assert (a + b)[1..] == a[1..] + b;
      CountIdAppend(a[1..], b, id);
    } else {
      assert a + b == b;
    }
  }

  /** A DELETE of an id nobody has leaves the list as it was. */
  lemma {:induction false} DeleteAbsentIsIdentity(prev: seq<PackageEntry>, id: string)
    requires forall e :: e in prev ==> e.Id() != id
    ensures DeleteById(prev, id) == prev
    decreases |prev|
  {
    if prev != [] {
      DeleteAbsentIsIdentity(prev[1..], id);
    }
  }

  /** An UPDATE followed by a DELETE of the same id leaves what the DELETE alone would. */
  lemma {:induction false} DeleteAfterUpdate(prev: seq<PackageEntry>, row: FoodPackageDto)
    ensures DeleteById(UpdateById(prev, row), row.id) == DeleteById(prev, row.id)
    decreases |prev|
  {
    if prev != [] {
      DeleteAfterUpdate(prev[1..], row);
    }
  }

  /** What a call to `fetchBusinessPackages` produced. */
  datatype FetchResult = Fetched(packages: seq<FoodPackage>) | FetchFailed

  const FetchErrorMessage := "Failed to load food packages. Please try again."

  /** The hook's state for one business. */
  class PackagesState {
    const businessId: string
    const includeUnavailable: bool
    var packages: seq<PackageEntry>
    var loading: bool
    var error: Option<string>
    var refreshing: bool

    /** The only error the hook ever reports is its fixed message. */
    predicate Valid()
      reads this
    {
      error == None || error == Some(FetchErrorMessage)
    }

    constructor (businessId: string, includeUnavailable: bool)
      ensures Valid()
      ensures this.businessId == businessId && this.includeUnavailable == includeUnavailable
      ensures packages == [] && loading && error == None && !refreshing
    {
      this.businessId := businessId;
      this.includeUnavailable := includeUnavailable;
      packages := [];
      loading := true;
      error := None;
      refreshing := false;
    }

    /** The synchronous start of `fetchPackages`: clear the error, show loading. */
    method StartFetch()
      requires Valid()
      modifies this
      ensures Valid()
      ensures error == None && loading
      ensures packages == old(packages) && refreshing == old(refreshing)
    {
      error := None;
      loading := true;
    }

    /** The end of `fetchPackages`: on success the list is replaced, on failure it is kept and the error set; both flags drop. */
    method CompleteFetch(result: FetchResult)
      requires Valid()
      modifies this
      ensures Valid()
      ensures !loading && !refreshing
      ensures result.Fetched? ==> packages == Entries(result.packages) && error == old(error)
      ensures result.FetchFailed? ==> packages == old(packages) && error == Some(FetchErrorMessage)
    {
      match result {
        case Fetched(ps) =>
          packages := Entries(ps);
        case FetchFailed =>
          error := Some(FetchErrorMessage);
      }
      loading := false;
      refreshing := false;
    }

    /** `fetchPackages` from call to settlement. */
    method FetchPackages(result: FetchResult)
      requires Valid()
      modifies this
      ensures Valid()
      ensures !loading && !refreshing
      ensures result.Fetched? ==> packages == Entries(result.packages) && error == None
      ensures result.FetchFailed? ==> packages == old(packages) && error == Some(FetchErrorMessage)
    {
      StartFetch();
      CompleteFetch(result);
    }

    /** The synchronous part of `refreshPackages`: the refreshing flag goes up, then the fetch starts. */
    method BeginRefresh()
      requires Valid()
      modifies this
      ensures Valid()
      ensures refreshing && loading && error == None && packages == old(packages)
    {
      refreshing := true;
      StartFetch();
    }

    /** `refreshPackages` from call to settlement. */
    method RefreshPackages(result: FetchResult)
      requires Valid()
      modifies this
      ensures Valid()
      ensures !loading && !refreshing
      ensures result.Fetched? ==> packages == Entries(result.packages) && error == None
      ensures result.FetchFailed? ==> packages == old(packages) && error == Some(FetchErrorMessage)
    {
      BeginRefresh();
      CompleteFetch(result);
    }

    /** `toggleShowUnavailable`: re-fetches, replaces the list only on success, touches no flag, returns the negated option. */
    method ToggleShowUnavailable(result: FetchResult) returns (next: bool)
      requires Valid()
      modifies this`packages
      ensures Valid()
      ensures next == !includeUnavailable
      ensures result.Fetched? ==> packages == Entries(result.packages)
      ensures result.FetchFailed? ==> packages == old(packages)
    {
      next := !includeUnavailable;
      match result {
        case Fetched(ps) =>
          packages := Entries(ps);
        case FetchFailed =>
      }
    }

    /** The realtime callback, at time `now`. */
    method HandleChange(event: ChangeEvent, now: int, parse: string -> Option<int>)
      requires Valid()
      modifies this`packages
      ensures Valid()
      ensures packages == ApplyChange(old(packages), event, includeUnavailable, now, parse)
    {
      packages := ApplyChange(packages, event, includeUnavailable, now, parse);
    }
  }
}
