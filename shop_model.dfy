/** The shop record and its normalising constructor (`new ShopModel(params)`):
    the id is coerced to an integer, the version and status get defaults,
    the coordinates are parsed, and a shop whose coordinates do not parse
    is marked invalid. */
module ShopModel {
  import opened JsValues
  import opened JsNumbers

  /** The three status names. */
  const Active: string := "active"
  const Deleted: string := "deleted"
  const Invalid: string := "invalid"

  /** The properties a constructed `ShopModel` object carries. */
  datatype Shop = Shop(
    id: Value,
    dateCreated: Value,
    lastUpdated: Value,
    version: Value,
    name: Value,
    address: Value,
    lat: Number,
    lng: Number,
    status: Value)

  /** The nine properties of a params object that `new ShopModel(params)`
      reads (absent ones read undefined); nothing else about the object
      matters. */
  datatype ShopParams = ShopParams(
    id: Value,
    dateCreated: Value,
    lastUpdated: Value,
    version: Value,
    name: Value,
    address: Value,
    lat: Value,
    lng: Value,
    status: Value)

  /** The empty params object `{}`. */
  const NoParams: ShopParams :=
    ShopParams(Undefined, Undefined, Undefined, Undefined, Undefined, Undefined, Undefined, Undefined, Undefined)

  /** True when a shop's coordinates did not both parse. */
  predicate BadCoordinates(s: Shop)
  {
    s.lat.NaN? || s.lng.NaN?
  }

  /** `new ShopModel(params)`; the field-by-field rules are `MakeFields`. */
  function Make(params: ShopParams): (r: Shop)
    ensures Normalised(r)
  {
    var lat := ParseFloat(params.lat);
    var lng := ParseFloat(params.lng);
    Shop(
      id := if Truthy(params.id) then Num(ParseInt(params.id)) else params.id,
      dateCreated := params.dateCreated,
      lastUpdated := params.lastUpdated,
      version := Or(params.version, Zero),
      name := params.name,
      address := params.address,
      lat := lat,
      lng := lng,
      status := if lat.NaN? || lng.NaN? then Str(Invalid) else Or(params.status, Str(Active)))
  }

  /** What `new ShopModel(params)` guarantees about the object it builds. */
  lemma MakeFields(params: ShopParams)
    ensures var r := Make(params);
      // a truthy id is replaced by a whole number (or NaN); any other id is kept
      && (Truthy(params.id) ==> r.id == Num(ParseInt(params.id)) && IsIntegral(r.id.n))
      && (!Truthy(params.id) ==> r.id == params.id)
      // the version defaults to 0
      && (Truthy(params.version) ==> r.version == params.version)
      && (!Truthy(params.version) ==> r.version == Zero)
      // descriptive fields and timestamps are copied unchanged
      && r.name == params.name && r.address == params.address
      && r.dateCreated == params.dateCreated && r.lastUpdated == params.lastUpdated
      // coordinates are the parsed numbers
      && r.lat == ParseFloat(params.lat) && r.lng == ParseFloat(params.lng)
      // unparsable coordinates force "invalid", whatever status was supplied
      && (BadCoordinates(r) ==> r.status == Str(Invalid))
      // otherwise the supplied status when truthy, else "active"
      && (!BadCoordinates(r) && Truthy(params.status) ==> r.status == params.status)
      && (!BadCoordinates(r) && !Truthy(params.status) ==> r.status == Str(Active))
      && Normalised(r)
  {
  }

  /** The shop's own properties, as the params of a second `new ShopModel`. */
  function ToParams(s: Shop): ShopParams
  {
    ShopParams(s.id, s.dateCreated, s.lastUpdated, s.version, s.name, s.address, Num(s.lat), Num(s.lng), s.status)
  }

  /** The shape every constructed shop has: a truthy id is a whole number,
      the version is truthy or 0, the status is truthy, and bad coordinates
      come with the status "invalid". */
  predicate Normalised(s: Shop)
  {
    && (Truthy(s.id) ==> s.id.Num? && IsIntegral(s.id.n))
    && (Truthy(s.version) || s.version == Zero)
    && Truthy(s.status)
    && (BadCoordinates(s) ==> s.status == Str(Invalid))
  }

  /** Rebuilding a shop from its own properties gives the same shop exactly
      when the shop is normalised. */
  lemma RebuildFixesNormalised(s: Shop)
    ensures Make(ToParams(s)) == s <==> Normalised(s)
  {
    if Normalised(s) && Truthy(s.id) {
      ParseIntOfWhole(s.id.n);
    }
  }

  /** Building a shop from an already built shop changes nothing; loading
      re-wraps every parsed row this way. */
  lemma {:induction false} MakeIdempotent(params: ShopParams)
    ensures Make(ToParams(Make(params))) == Make(params)
  {
    MakeFields(params);
    RebuildFixesNormalised(Make(params));
  }
}
