/** The point-of-interest catalog as both models see it: the spot record
    (one `item` of the catalog's XML answer), `int()` of its `dist` text,
    the decoded shape of the answer, and the guard of `get_loc_based_list`
    that turns it into the list of spots. */
module Catalog {
  import opened Wrappers
  import ListOps
  import opened Modules

  // ---------------------------------------------------------------------------
  // The spot record
  // ---------------------------------------------------------------------------

  /** The `dist` field: text as decoded from XML, or the int that
      `get_total_time` stores back in its place. */
  datatype Dist = DistText(text: string) | DistInt(n: int)

  /** One spot record: `dist`, the coordinates `mapx`/`mapy`, every other
      field of the catalog (title, address, content id, ...) untouched, and
      the `travel_time` and `free_time` keys, absent in a catalog record and
      added by `get_total_time`. */
  datatype Spot = Spot(dist: Dist, pos: Coord, other: map<string, string>,
                       travelTime: Option<int>, freeTime: Option<int>)

  /** The sort key `x["travel_time"]`. Every record that reaches the sort
      was returned by `get_total_time`, which sets `travel_time` (see
      `Annotate`), so the `None` branch never reaches the sort; it only makes
      the function total. */
  function TravelKey(s: Spot): int {
    match s.travelTime
    case Some(t) => t
    case None => 0
  }

  // ---------------------------------------------------------------------------
  // int() of the dist text
  // ---------------------------------------------------------------------------

  predicate IsDigit(c: char) {
    '0' <= c <= '9'
  }

  predicate AllDigits(s: string) {
    forall i :: 0 <= i < |s| ==> IsDigit(s[i])
  }

  /** A decimal integer literal: digits, optionally after one sign. */
  predicate IsIntLiteral(s: string) {
    (|s| > 0 && AllDigits(s)) || (|s| > 1 && (s[0] == '+' || s[0] == '-') && AllDigits(s[1..]))
  }

  /** The number a digit string denotes. */
  function DigitsValue(s: string): (n: nat)
    requires AllDigits(s)
  {
    if s == [] then 0 else DigitsValue(s[..|s| - 1]) * 10 + (s[|s| - 1] as int - '0' as int)
  }

  /** `int(text)`: the value of a decimal literal; anything else raises
      `ValueError`. */
  function ParseInt(s: string): (r: Result<int>)
    ensures r.Ok? <==> IsIntLiteral(s)
  {
    if |s| > 0 && AllDigits(s) then Ok(DigitsValue(s))
    else if |s| > 1 && s[0] == '+' && AllDigits(s[1..]) then Ok(DigitsValue(s[1..]))
    else if |s| > 1 && s[0] == '-' && AllDigits(s[1..]) then Ok(-(DigitsValue(s[1..]) as int))
    else Err(ValueError("invalid literal for int() with base 10"))
  }

  /** The shortest decimal numeral of `n`. */
  function DecimalText(n: nat): (s: string)
    ensures |s| > 0 && AllDigits(s)
  {
    var digit := ('0' as int + n % 10) as char;
    if n < 10 then [digit] else DecimalText(n / 10) + [digit]
  }

  lemma {:induction false} DigitsRoundTrip(n: nat)
    ensures DigitsValue(DecimalText(n)) == n
  {
    var s := DecimalText(n);
    if n >= 10 {
      DigitsRoundTrip(n / 10);
      assert s[..|s| - 1] == DecimalText(n / 10);
    }
  }

  /** Reading back a number written in decimal gives the number. */
  lemma ParseIntRoundTrip(n: int)
    ensures n >= 0 ==> ParseInt(DecimalText(n)) == Ok(n)
    ensures n < 0 ==> ParseInt("-" + DecimalText(-n)) == Ok(n)
  {
    if n >= 0 {
      DigitsRoundTrip(n);
    } else {
      DigitsRoundTrip(-n);
      var s := "-" + DecimalText(-n);
      assert s[1..] == DecimalText(-n);
      assert !AllDigits(s) by {
        assert !IsDigit(s[0]);
      }
    }
  }

  /** `int(tmp["dist"])`: an int stays as it is, text is parsed. */
  function CoerceDist(d: Dist): (r: Result<int>)
    ensures d.DistInt? ==> r == Ok(d.n)
    ensures d.DistText? ==> (r.Ok? <==> IsIntLiteral(d.text))
  {
    match d
    case DistInt(n) => Ok(n)
    case DistText(text) => ParseInt(text)
  }

  /** The record `get_total_time` returns: a copy of `spot` with `dist` as an
      int and the two time keys set; every other field is the catalog's. */
  function Annotate(spot: Spot, dist: int, travel: int, free: int): (r: Spot)
    ensures r.pos == spot.pos && r.other == spot.other
    ensures r.dist == DistInt(dist) && r.travelTime == Some(travel) && r.freeTime == Some(free)
  {
    spot.(dist := DistInt(dist), travelTime := Some(travel), freeTime := Some(free))
  }

  // ---------------------------------------------------------------------------
  // The catalog's answer, as the XML decoder shapes it
  // ---------------------------------------------------------------------------

  /** The parameters of one `locationBasedList` request that the model
      distinguishes (the service key, client name and `arrange=E` distance
      order are the same on every request). */
  datatype CatalogQuery = CatalogQuery(center: Coord, radius: int, contentType: int, numOfRows: int)

  /** The value of the `item` key: the decoder gives a list when the answer
      holds several `item` elements, the record itself when it holds one,
      and `None` for a single empty `item` element. */
  datatype ItemNode = ItemList(spots: seq<Spot>) | SingleItem(spot: Spot) | BlankItem

  /** The `items` element: empty (the decoder gives `None`), or a mapping
      that may hold the `item` key. */
  datatype ItemsElement = BlankItems | Items(item: Option<ItemNode>)

  /** The `body` element: empty (`None`), or a mapping that may lack the
      `items` key. */
  datatype Body = BlankBody | Body(items: Option<ItemsElement>)

  /** The decoded document: an empty `response` root (`None`), a `response`
      root that may lack the `body` key, or a document with some other root
      element. */
  datatype CatalogResponse = BlankResponse | Response(body: Option<Body>) | OtherRoot

  /** The value at `response.body.items.item`, when every key on that path
      is present. */
  function ItemValue(resp: CatalogResponse): Option<ItemNode> {
    match resp
    case Response(Some(Body(Some(Items(Some(node)))))) => Some(node)
    case _ => None
  }

  /** An element on the path `response.body.items` is present but empty, so
      the decoder gave `None` where the guard expects a mapping. */
  predicate BlankOnPath(resp: CatalogResponse) {
    || resp.BlankResponse?
    || resp == Response(Some(BlankBody))
    || resp == Response(Some(Body(Some(BlankItems))))
  }

  /** The shapes on which the source's guard and slice raise although the
      document has its `response` root: an empty element on the path, or an
      `item` value that is not a list. */
  predicate SourceGuardFails(resp: CatalogResponse) {
    BlankOnPath(resp) || (ItemValue(resp).Some? && !ItemValue(resp).value.ItemList?)
  }

  /** The guard of `get_loc_based_list` as the source writes it: `[]` when
      `body`, `items` or `item` is missing, otherwise the `item` value as the
      decoder gave it. A document without `response` raises `KeyError`; a
      membership test on an empty element (`"body" not in None` and the
      like) raises `TypeError`. */
  function ItemsAsWritten(resp: CatalogResponse): (r: Result<ItemNode>)
    ensures r.Err? <==> resp.OtherRoot? || BlankOnPath(resp)
    ensures resp.OtherRoot? ==> r == Err(KeyError("response"))
    ensures r.Ok? ==> r.value == if ItemValue(resp).Some? then ItemValue(resp).value else ItemList([])
  {
    match resp
    case OtherRoot => Err(KeyError("response"))
    case BlankResponse => Err(TypeError("argument of type 'NoneType' is not iterable"))
    case Response(None) => Ok(ItemList([]))
    case Response(Some(BlankBody)) => Err(TypeError("argument of type 'NoneType' is not iterable"))
    case Response(Some(Body(None))) => Ok(ItemList([]))
    case Response(Some(Body(Some(BlankItems)))) => Err(TypeError("argument of type 'NoneType' is not iterable"))
    case Response(Some(Body(Some(Items(None))))) => Ok(ItemList([]))
    case Response(Some(Body(Some(Items(Some(node)))))) => Ok(node)
  }

  /** `loc_based_list[:candidate]` on what the guard returned: a list is
      sliced; a single record (a mapping) cannot be sliced and raises
      (`TypeError` before Python 3.12, `KeyError` from 3.12 on), and neither
      can `None`. */
  function SliceAsWritten(node: ItemNode, n: int): (r: Result<seq<Spot>>)
    ensures r.Ok? <==> node.ItemList?
    ensures node.ItemList? ==> r == Ok(ListOps.TakePrefix(node.spots, n))
  {
    match node
    case ItemList(spots) => Ok(ListOps.TakePrefix(spots, n))
    case SingleItem(_) => Err(TypeError("unhashable type: 'slice'"))
    case BlankItem => Err(TypeError("'NoneType' object is not subscriptable"))
  }

  /** An answer with no results (an empty `items` element) makes the source
      guard raise instead of returning `[]`; so do an empty `body` or
      `response` element. */
  lemma BlankElementRaises()
    ensures ItemsAsWritten(Response(Some(Body(Some(BlankItems))))).Err?
    ensures ItemsAsWritten(Response(Some(BlankBody))).Err?
    ensures ItemsAsWritten(BlankResponse).Err?
  {
  }

  /** An answer with exactly one spot passes the guard, and the slice of the
      candidate prefix then raises instead of giving that one spot. */
  lemma SingleItemRaises(spot: Spot, candidate: int)
    ensures ItemsAsWritten(Response(Some(Body(Some(Items(Some(SingleItem(spot))))))))
            == Ok(SingleItem(spot))
    ensures SliceAsWritten(SingleItem(spot), candidate).Err?
  {
  }

  /** Every `item` record the document carries, in document order. */
  ghost function CarriedItems(resp: CatalogResponse): seq<Spot> {
    match ItemValue(resp)
    case Some(ItemList(spots)) => spots
    case Some(SingleItem(spot)) => [spot]
    case _ => []
  }

  /** The guard as evidently intended: exactly the spots the answer carries,
      `[]` when it carries none (an empty element on the path included), a
      single spot as a one-element list; only a document without the
      `response` root raises. */
  function CatalogItems(resp: CatalogResponse): (r: Result<seq<Spot>>)
    ensures r.Err? <==> resp.OtherRoot?
    ensures r.Err? ==> r.error == KeyError("response")
    ensures r.Ok? ==> r.value == CarriedItems(resp)
  {
    match resp
    case OtherRoot => Err(KeyError("response"))
    case BlankResponse => Ok([])
    case Response(None) => Ok([])
    case Response(Some(BlankBody)) => Ok([])
    case Response(Some(Body(None))) => Ok([])
    case Response(Some(Body(Some(BlankItems)))) => Ok([])
    case Response(Some(Body(Some(Items(None))))) => Ok([])
    case Response(Some(Body(Some(Items(Some(BlankItem)))))) => Ok([])
    case Response(Some(Body(Some(Items(Some(ItemList(spots))))))) => Ok(spots)
    case Response(Some(Body(Some(Items(Some(SingleItem(spot))))))) => Ok([spot])
  }

  /** The source's guard followed by its slice `loc_based_list[:candidate]`.
      It raises exactly where the intended guard does or on the shapes of
      `SourceGuardFails`; everywhere else it gives the same candidate prefix
      as the intended guard. */
  function PrefixAsWritten(resp: CatalogResponse, n: int): (r: Result<seq<Spot>>)
    ensures r.Err? <==> resp.OtherRoot? || SourceGuardFails(resp)
    ensures resp.OtherRoot? ==> r == CatalogItems(resp)
    ensures r.Ok? ==> CatalogItems(resp).Ok? && r.value == ListOps.TakePrefix(CatalogItems(resp).value, n)
  {
    var node :- ItemsAsWritten(resp);
    SliceAsWritten(node, n)
  }
}
