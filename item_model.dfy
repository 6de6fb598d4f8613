/** The item record built from Mongo-style JSON (`new ItemModel(params)`):
    `{ $oid }` ids and `{ $date }` dates are unwrapped, and loc, description,
    price and status fall back to defaults. */
module ItemModel {
  import opened JsValues

  /** The properties a constructed `ItemModel` object carries. */
  datatype Item = Item(
    id: Value,
    createdAt: Value,
    userId: Value,
    loc: Value,
    description: Value,
    price: Value,
    status: Value)

  /** `convertMongoId(x)`: the `$oid` of an object that has a truthy one,
      otherwise undefined. */
  function ConvertMongoId(x: Value): (r: Value)
    ensures r != Undefined <==> x.Obj? && Truthy(Get(x.props, "$oid"))
    ensures r != Undefined ==> r == x.props["$oid"] && Truthy(r)
  {
    if x.Obj? && Truthy(Get(x.props, "$oid")) then Get(x.props, "$oid") else Undefined
  }

  /** `convertMongoDate(x)`: `new Date(x.$date)` for an object that has a
      truthy `$date`, otherwise undefined. */
  function ConvertMongoDate(x: Value): (r: Value)
    ensures r != Undefined <==> x.Obj? && Truthy(Get(x.props, "$date"))
    ensures r != Undefined ==> r == DateObj(x.props["$date"])
  {
    if x.Obj? && Truthy(Get(x.props, "$date")) then DateObj(Get(x.props, "$date")) else Undefined
  }

  /** lodash `isNumber`: true of every number, NaN included. */
  predicate IsNumber(v: Value)
  {
    v.Num?
  }

  /** `new ItemModel(params)`. */
  function Make(params: Params): (r: Item)
    // a truthy id wins; otherwise the unwrapped Mongo `_id`
    ensures Truthy(Get(params, "id")) ==> r.id == Get(params, "id")
    ensures !Truthy(Get(params, "id")) ==> r.id == ConvertMongoId(Get(params, "_id"))
    ensures Truthy(r.id) || r.id == Undefined
    // the user id and creation date are always the unwrapped forms
    ensures r.userId == ConvertMongoId(Get(params, "userId"))
    ensures r.createdAt == ConvertMongoDate(Get(params, "createdAt"))
    // the price is always a number: the supplied one, else 0
    ensures r.price.Num?
    ensures IsNumber(Get(params, "price")) ==> r.price == Get(params, "price")
    ensures !IsNumber(Get(params, "price")) ==> r.price == Zero
    // falsy loc, description and status fall back to [], '' and "unknown"
    ensures Truthy(Get(params, "loc")) ==> r.loc == Get(params, "loc")
    ensures !Truthy(Get(params, "loc")) ==> r.loc == Arr([])
    ensures Truthy(Get(params, "description")) ==> r.description == Get(params, "description")
    ensures !Truthy(Get(params, "description")) ==> r.description == Str("")
    ensures Truthy(Get(params, "status")) ==> r.status == Get(params, "status")
    ensures !Truthy(Get(params, "status")) ==> r.status == Str("unknown")
    ensures Truthy(r.loc) && Truthy(r.status)
  {
    Item(
      id := Or(Get(params, "id"), ConvertMongoId(Get(params, "_id"))),
      createdAt := ConvertMongoDate(Get(params, "createdAt")),
      userId := ConvertMongoId(Get(params, "userId")),
      loc := Or(Get(params, "loc"), Arr([])),
      description := Or(Get(params, "description"), Str("")),
      price := if IsNumber(Get(params, "price")) then Get(params, "price") else Zero,
      status := Or(Get(params, "status"), Str("unknown")))
  }

  /** The item's own properties, as a params object for a second `new ItemModel`. */
  function ToParams(i: Item): (p: Params)
    ensures "_id" !in p && p.Keys == {"id", "createdAt", "userId", "loc", "description", "price", "status"}
  {
    map[
      "id" := i.id,
      "createdAt" := i.createdAt,
      "userId" := i.userId,
      "loc" := i.loc,
      "description" := i.description,
      "price" := i.price,
      "status" := i.status]
  }

  /** Re-wrapping a built item keeps its id and its defaulted fields, but
      loses the Mongo-converted ones: a date object has no `$date`, and a
      user id that is not itself an object has no `$oid`. */
  lemma RebuildKeepsDefaultsDropsMongoFields(params: Params)
    ensures var i := Make(params);
      var j := Make(ToParams(i));
      && j.id == i.id && j.loc == i.loc && j.description == i.description
      && j.price == i.price && j.status == i.status
      && j.createdAt == Undefined
      && (!i.userId.Obj? ==> j.userId == Undefined)
  {
  }
}
