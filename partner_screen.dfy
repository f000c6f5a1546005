/**
 * `PartnerScreen` (entities/partner/screens/partner-screen/partner-screen.tsx):
 * loads one partner and its packages by the route's id, then picks one of
 * three views: a spinner, an error, or the partner with one card per package.
 * The two fetches run together in the source; the model takes both results
 * as parameters.
 */
module PartnerScreen {
  import opened Wrappers
  import opened FoodPackages
  import opened Partners
  import opened Discount

  /** How one fetch settled. */
  datatype Fetch<T> = Resolved(value: T) | Rejected

  datatype PackageCard = PackageCard(id: string, discount: Percentage, badge: bool)

  datatype PackagesSection = NoPackages | Cards(cards: seq<PackageCard>)

  datatype View = Spinner | ErrorView(message: string) | Details(partner: Partner, section: PackagesSection)

  const MissingIdMessage := "Partner ID is missing"
  const NotFoundMessage := "Partner not found"

  /** One card per package, in order, each with its discount and badge. */
  function CardsOf(packages: seq<FoodPackage>): (cards: seq<PackageCard>)
    ensures |cards| == |packages|
    ensures forall i :: 0 <= i < |packages| ==>
      && cards[i].id == packages[i].id
      && cards[i].discount == DiscountPercentage(packages[i].originalPrice, packages[i].discountedPrice)
      && (cards[i].badge <==> ShowsBadge(cards[i].discount))
  {
    if packages == [] then []
    else
      var d := DiscountPercentage(packages[0].originalPrice, packages[0].discountedPrice);
      [PackageCard(packages[0].id, d, ShowsBadge(d))] + CardsOf(packages[1..])
  }

  /** The render branches: spinner while loading, whatever the error; then the error (or "Partner not found"); then the details. */
  function Render(loading: bool, error: Option<string>, partner: Option<Partner>, packages: seq<FoodPackage>): (v: View)
    ensures loading <==> v == Spinner
    ensures !loading && (!Falsy(error) || partner.None?) ==>
      v == ErrorView(if !Falsy(error) then error.value else NotFoundMessage)
    ensures v.Details? <==> !loading && Falsy(error) && partner.Some?
    ensures v.Details? ==> v.partner == partner.value
    ensures v.Details? ==> (v.section == NoPackages <==> packages == [])
    ensures v.Details? && packages != [] ==> v.section == Cards(CardsOf(packages))
  {
    if loading then Spinner
    else if !Falsy(error) || partner.None? then
      ErrorView(if !Falsy(error) then error.value else NotFoundMessage)
    else
      Details(partner.value, if |packages| == 0 then NoPackages else Cards(CardsOf(packages)))
  }

  class PartnerScreenState {
    var partner: Option<Partner>
    var packages: seq<FoodPackage>
    var loading: bool
    var error: Option<string>
    /** Ids the screen has asked the backend for, oldest first. */
    ghost var requested: seq<string>

    constructor ()
      ensures partner == None && packages == [] && loading && error == None && requested == []
    {
      partner := None;
      packages := [];
      loading := true;
      error := None;
      requested := [];
    }

    function CurrentView(): View
      reads this
    {
      Render(loading, error, partner, packages)
    }

    /**
     * `loadPartnerData`. A falsy id sets the error, stops loading and fetches
     * nothing. Otherwise both fetches are issued; when both resolve their
     * results are stored and loading stops; when either rejects the rejection
     * escapes the function and nothing is set, so the spinner stays.
     */
    method LoadPartnerData(id: Option<string>, partnerFetch: Fetch<Option<Partner>>, packagesFetch: Fetch<seq<FoodPackage>>)
      modifies this
      ensures Falsy(id) ==>
        && error == Some(MissingIdMessage) && !loading
        && partner == old(partner) && packages == old(packages) && requested == old(requested)
        && CurrentView() == ErrorView(MissingIdMessage)
      ensures !Falsy(id) ==> requested == old(requested) + [id.value]
      ensures !Falsy(id) && partnerFetch.Resolved? && packagesFetch.Resolved? ==>
        && partner == partnerFetch.value && packages == packagesFetch.value && !loading && error == old(error)
      ensures !Falsy(id) && (partnerFetch.Rejected? || packagesFetch.Rejected?) ==>
        && partner == old(partner) && packages == old(packages) && loading == old(loading) && error == old(error)
    {
      if Falsy(id) {
        error := Some(MissingIdMessage);
        loading := false;
        return;
      }
      requested := requested + [id.value];
      match (partnerFetch, packagesFetch) {
        case (Resolved(p), Resolved(ps)) =>
          partner := p;
          packages := ps;
          loading := false;
        case _ =>
      }
    }
  }
}
