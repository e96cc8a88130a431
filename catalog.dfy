/**
 * The product and variant rules that do not depend on the store: how a
 * request body becomes a new row or changes an existing one, the name
 * search (`ILIKE '<search>%'`), and the listings with their page
 * arithmetic. A request body field is `undefined`, `null` or a value
 * (`Common.Field`). A database error is the `ServerError` carrying the
 * database's message.
 */
module Catalog {
  import opened Common
  import opened Entities
  import Paginate

  const PRODUCT_NOT_FOUND: string := "PRODUCT_NOT_FOUND"
  const VARIANT_NOT_FOUND: string := "VARIANT_NOT_FOUND"
  /** What the variant listing answers for any error it catches. */
  const INTERNAL_SERVER_ERROR: string := "Internal server error"
  /** The TypeError of calling `trim` on a search that is not a string. */
  const TRIM_NOT_A_FUNCTION: string := "req.query.search.trim is not a function"

  /** The message of the validation error for a NOT NULL column left null. */
  function NotNull(model: string, column: string): string
  {
    "notNull Violation: " + model + "." + column + " cannot be null"
  }

  /** `x` is truthy for a string field: present and not empty. */
  predicate Truthy(f: Field<string>)
  {
    f.Val? && f.v != ""
  }

  /** A field stored into a nullable column: `undefined` and `null` both
      become NULL. */
  function Nullable<T>(f: Field<T>): (r: Option<T>)
    ensures r.Some? <==> f.Val?
    ensures r.Some? ==> r.value == f.v
  {
    if f.Val? then Some(f.v) else None
  }

  /** `x || d` for a numeric field: `undefined`, `null` and 0 give `d`. */
  function NumFieldOr(f: Field<int>, d: int): int
  {
    if f.Val? && f.v != 0 then f.v else d
  }

  // -----------------------------------------------------------------------
  // Products

  /** The body of a product create or update request. */
  datatype ProductInput = ProductInput(
    name: Field<string>, desc: Field<string>, isVariable: Field<bool>, isActive: Field<bool>,
    price: Field<int>, purchasePrice: Field<int>, profitMargin: Field<int>, stock: Field<int>)

  /** A body that supplies nothing. */
  const NO_PRODUCT_FIELDS: ProductInput :=
    ProductInput(Undefined, Undefined, Undefined, Undefined, Undefined, Undefined, Undefined, Undefined)

  /** `products.create` with the create defaults: `isVariable || false`,
      `isActive` true only when not supplied, the three amounts `|| 0`, and
      `stock || null`. The name column is NOT NULL. */
  function NewProduct(input: ProductInput): (r: Result<Product>)
    ensures r.Err? <==> !input.name.Val?
    ensures r.Err? ==> r.error == ServerError(NotNull("products", "name"))
    ensures r.Ok? ==> r.value.name == input.name.v && r.value.desc == Nullable(input.desc)
    ensures r.Ok? ==> r.value.isVariable == Some(input.isVariable == Val(true))
    ensures r.Ok? ==> r.value.isActive == if input.isActive.Undefined? then Some(true) else Nullable(input.isActive)
    ensures r.Ok? ==> r.value.price.Some? && r.value.purchasePrice.Some? && r.value.profitMargin.Some?
    ensures r.Ok? ==> (r.value.price.value != 0 <==> input.price.Val? && input.price.v != 0)
    ensures r.Ok? ==> r.value.price.value != 0 ==> r.value.price.value == input.price.v
    ensures r.Ok? ==> (r.value.stock.Some? <==> input.stock.Val? && input.stock.v != 0)
    ensures r.Ok? ==> r.value.stock.Some? ==> r.value.stock.value == input.stock.v
  {
    if !input.name.Val? then Err(ServerError(NotNull("products", "name")))
    else Ok(Product(
      input.name.v,
      Nullable(input.desc),
      Some(input.isVariable == Val(true)),
      if input.isActive.Undefined? then Some(true) else Nullable(input.isActive),
      Some(NumFieldOr(input.price, 0)),
      Some(NumFieldOr(input.purchasePrice, 0)),
      Some(NumFieldOr(input.profitMargin, 0)),
      if input.stock.Val? && input.stock.v != 0 then Some(input.stock.v) else None))
  }

  /** `stock || null` stores a stock of 0 as NULL, while an amount of 0 is
      stored as 0. */
  lemma ZeroStockStoredAsNull(input: ProductInput)
    requires input.name.Val? && input.stock == Val(0) && input.price == Val(0)
    ensures NewProduct(input).value.stock == None
    ensures NewProduct(input).value.price == Some(0)
  {
  }

  /** The conditional assignments of `updateProduct`: name and desc only
      when truthy, every other field whenever it is not `undefined` (so a
      `null` clears it). */
  function UpdateProductFields(p: Product, input: ProductInput): (q: Product)
    ensures q.name == if Truthy(input.name) then input.name.v else p.name
    ensures q.desc == if Truthy(input.desc) then Some(input.desc.v) else p.desc
    ensures input.isVariable.Undefined? ==> q.isVariable == p.isVariable
    ensures input.isActive.Undefined? ==> q.isActive == p.isActive
    ensures input.price.Undefined? ==> q.price == p.price
    ensures input.purchasePrice.Undefined? ==> q.purchasePrice == p.purchasePrice
    ensures input.profitMargin.Undefined? ==> q.profitMargin == p.profitMargin
    ensures input.stock.Undefined? ==> q.stock == p.stock
    ensures !input.isVariable.Undefined? ==> q.isVariable == Nullable(input.isVariable)
    ensures !input.isActive.Undefined? ==> q.isActive == Nullable(input.isActive)
    ensures !input.price.Undefined? ==> q.price == Nullable(input.price)
    ensures !input.purchasePrice.Undefined? ==> q.purchasePrice == Nullable(input.purchasePrice)
    ensures !input.profitMargin.Undefined? ==> q.profitMargin == Nullable(input.profitMargin)
    ensures !input.stock.Undefined? ==> q.stock == Nullable(input.stock)
  {
    Product(
      if Truthy(input.name) then input.name.v else p.name,
      if Truthy(input.desc) then Some(input.desc.v) else p.desc,
      if input.isVariable.Undefined? then p.isVariable else Nullable(input.isVariable),
      if input.isActive.Undefined? then p.isActive else Nullable(input.isActive),
      if input.price.Undefined? then p.price else Nullable(input.price),
      if input.purchasePrice.Undefined? then p.purchasePrice else Nullable(input.purchasePrice),
      if input.profitMargin.Undefined? then p.profitMargin else Nullable(input.profitMargin),
      if input.stock.Undefined? then p.stock else Nullable(input.stock))
  }

  /** An empty body changes nothing, and sending the same body twice is
      the same as sending it once. */
  lemma UpdateProductPartial(p: Product, input: ProductInput)
    ensures UpdateProductFields(p, NO_PRODUCT_FIELDS) == p
    ensures UpdateProductFields(UpdateProductFields(p, input), input) == UpdateProductFields(p, input)
  {
  }

  /** An empty name or description in the body does not clear the stored
      one, while a `null` amount does. */
  lemma UpdateProductFalsyText(p: Product)
    ensures UpdateProductFields(p, NO_PRODUCT_FIELDS.(name := Val(""), desc := Null)) == p
    ensures UpdateProductFields(p, NO_PRODUCT_FIELDS.(price := Null)).price == None
  {
  }

  // -----------------------------------------------------------------------
  // Variants

  /** The body of a variant create or update request. */
  datatype VariantInput = VariantInput(variantsName: Field<string>, value: Field<string>, price: Field<int>)

  /** The NOT NULL columns a new variant row would leave null, in column
      order. `price` has a default, so only an explicit `null` violates it. */
  function VariantViolations(input: VariantInput): (cols: seq<string>)
    ensures |cols| <= 3
    ensures "variantsName" in cols <==> !input.variantsName.Val?
    ensures "value" in cols <==> !input.value.Val?
    ensures "price" in cols <==> input.price.Null?
  {
    (if input.variantsName.Val? then [] else ["variantsName"])
    + (if input.value.Val? then [] else ["value"])
    + (if input.price.Null? then ["price"] else [])
  }

  /** The validation error's message: one line per violated column. */
  function ViolationMessage(model: string, cols: seq<string>): string
  {
    Join(seq(|cols|, i requires 0 <= i < |cols| => NotNull(model, cols[i])), ",\n")
  }

  // -----------------------------------------------------------------------
  // Variant SKUs

  const SKU_PREFIX: string := "SKU-"
  const SKU_DIGITS: nat := 6

  /** The message the store library gives a unique-key clash. */
  const UNIQUE_VIOLATION: string := "Validation error"

  /** The `sku` column default, `'SKU-' || LPAD(n::text, 6, '0')`, for the
      sequence value `n` the insert draws. */
  function Sku(n: nat): (s: string)
    ensures |s| == |SKU_PREFIX| + SKU_DIGITS && s[..4] == SKU_PREFIX
  {
    SKU_PREFIX + LeftPad(Decimal(n), SKU_DIGITS, '0')
  }

  /** Below 10^6 the six digits after the prefix read back as the sequence
      value, so distinct values give distinct SKUs. */
  lemma SkuInjective(a: nat, b: nat)
    requires a < Pow10(SKU_DIGITS) && b < Pow10(SKU_DIGITS) && a != b
    ensures Sku(a) != Sku(b)
  {
    PadRoundTrip(a, SKU_DIGITS);
    PadRoundTrip(b, SKU_DIGITS);
    assert Sku(a)[4..] == LeftPad(Decimal(a), SKU_DIGITS, '0');
    assert Sku(b)[4..] == LeftPad(Decimal(b), SKU_DIGITS, '0');
  }

  /** From 10^6 on LPAD cuts the text, so a value gets the SKU of the value
      with its last digit dropped: 1000000 and 100000 both give
      "SKU-100000". */
  lemma SkuCollides(n: nat)
    requires n >= Pow10(SKU_DIGITS)
    ensures Sku(n) == Sku(n / 10)
  {
    PadDropsLastDigit(n, SKU_DIGITS);
  }

  /** The unique index on `sku` rejects a value already in use. */
  predicate SkuTaken(variants: map<Id, Variant>, sku: string)
    ensures SkuTaken(variants, sku) <==> sku in set k | k in variants :: variants[k].sku
    ensures variants == map[] ==> !SkuTaken(variants, sku)
  {
    exists k :: k in variants && variants[k].sku == sku
  }

  /** Once the sequence passes 999999, a new variant clashes with the one
      that drew the value with the last digit dropped, if that one still
      exists. */
  lemma SkuTakenPastSixDigits(variants: map<Id, Variant>, k: Id, n: nat)
    requires n >= Pow10(SKU_DIGITS)
    requires k in variants && variants[k].sku == Sku(n / 10)
    ensures SkuTaken(variants, Sku(n))
  {
    SkuCollides(n);
  }

  /** `productVariants.create` for the product in the path: the row the
      insert writes, with `sku` the column default's value. */
  function NewVariant(productId: Id, input: VariantInput, sku: string): (r: Result<Variant>)
    ensures r.Err? <==> VariantViolations(input) != []
    ensures r.Err? ==> r.error == ServerError(ViolationMessage("productVariants", VariantViolations(input)))
    ensures r.Ok? ==> r.value == Variant(productId, input.variantsName.v, input.value.v,
                                         if input.price.Val? then input.price.v else 0, sku)
  {
    var cols := VariantViolations(input);
    if cols != [] then Err(ServerError(ViolationMessage("productVariants", cols)))
    else Ok(Variant(productId, input.variantsName.v, input.value.v, if input.price.Val? then input.price.v else 0, sku))
  }

  /** The conditional assignments of `updateVariant` and the save: the name
      and value only when truthy, the price whenever it is not `undefined`;
      a `null` price fails the NOT NULL check on save. The product link
      and the SKU never change. */
  function UpdateVariantFields(v: Variant, input: VariantInput): (r: Result<Variant>)
    ensures r.Err? <==> input.price.Null?
    ensures r.Err? ==> r.error == ServerError(NotNull("productVariants", "price"))
    ensures r.Ok? ==> r.value.productId == v.productId && r.value.sku == v.sku
    ensures r.Ok? ==> r.value.variantsName == if Truthy(input.variantsName) then input.variantsName.v else v.variantsName
    ensures r.Ok? ==> r.value.value == if Truthy(input.value) then input.value.v else v.value
    ensures r.Ok? ==> r.value.price == if input.price.Val? then input.price.v else v.price
  {
    if input.price.Null? then Err(ServerError(NotNull("productVariants", "price")))
    else Ok(Variant(
      v.productId,
      if Truthy(input.variantsName) then input.variantsName.v else v.variantsName,
      if Truthy(input.value) then input.value.v else v.value,
      if input.price.Val? then input.price.v else v.price,
      v.sku))
  }

  /** Applying an accepted variant update a second time changes nothing. */
  lemma UpdateVariantIdempotent(v: Variant, input: VariantInput)
    requires UpdateVariantFields(v, input).Ok?
    ensures UpdateVariantFields(UpdateVariantFields(v, input).value, input) == UpdateVariantFields(v, input)
  {
  }

  // -----------------------------------------------------------------------
  // Name search

  /** The `search` query parameter: absent, a string, or the array or
      object the query parser builds for a repeated or bracketed key. */
  datatype Search = NoSearch | Text(s: string) | Structured

  /** The typed services' filter: only a string that is not blank after
      trimming filters, and the pattern keeps the untrimmed text. */
  function SearchPattern(q: Search): (pat: Option<string>)
    ensures pat.Some? <==> q.Text? && !Blank(q.s)
    ensures pat.Some? ==> pat.value == q.s + "%"
  {
    if q.Text? && !Blank(q.s) then Some(q.s + "%") else None
  }

  /** The plain services' filter: `search.trim()` is called on any truthy
      search, which throws for an array or object. */
  function SearchPatternJs(q: Search): (r: Result<Option<string>>)
    ensures r.Err? <==> q.Structured?
    ensures r.Err? ==> r.error == ServerError(TRIM_NOT_A_FUNCTION)
  {
    match q
    case Structured => Err(ServerError(TRIM_NOT_A_FUNCTION))
    case _ => Ok(SearchPattern(q))
  }

  /** The two filters agree on every search the plain one does not throw on. */
  lemma SearchPatternsAgree(q: Search)
    requires !q.Structured?
    ensures SearchPatternJs(q) == Ok(SearchPattern(q))
  {
  }

  /** ASCII case folding, as `ILIKE` compares in the C locale. */
  function Fold(c: char): char
  {
    if 'A' <= c <= 'Z' then (c as int + 32) as char else c
  }

  /** `s ILIKE p`: `%` matches any run of characters, `_` any single
      character, a backslash makes the next character literal, and every
      other character matches itself up to case. An empty name is matched
      only by a pattern of `%` alone, and a pattern without wildcards only
      matches names of its own length. */
  function ILike(p: string, s: string): (r: bool)
    ensures s == [] ==> (r <==> forall i :: 0 <= i < |p| ==> p[i] == '%')
    ensures r && Plain(p) ==> |s| == |p|
    decreases |p| + |s|
  {
    if p == [] then s == []
    else if p[0] == '%' then ILike(p[1..], s) || (s != [] && ILike(p, s[1..]))
    else if p[0] == '_' then s != [] && ILike(p[1..], s[1..])
    else if p[0] == '\\' && |p| >= 2 then s != [] && Fold(p[1]) == Fold(s[0]) && ILike(p[2..], s[1..])
    else s != [] && Fold(p[0]) == Fold(s[0]) && ILike(p[1..], s[1..])
  }

  predicate Plain(t: string)
  {
    forall i :: 0 <= i < |t| ==> t[i] != '%' && t[i] != '_' && t[i] != '\\'
  }

  /** A trailing `%` matches anything. */
  lemma {:induction false} PercentMatchesAll(s: string)
    ensures ILike("%", s)
    decreases |s|
  {
    if s != [] {
      PercentMatchesAll(s[1..]);
    }
  }

  /** A search without wildcard or escape characters matches exactly the
      names that start with it, ignoring case. */
  lemma {:induction false} PlainSearchIsPrefix(t: string, s: string)
    requires Plain(t)
    ensures ILike(t + "%", s) <==> |t| <= |s| && forall i :: 0 <= i < |t| ==> Fold(t[i]) == Fold(s[i])
    decreases |t|
  {
    if t == [] {
      assert t + "%" == "%";
      PercentMatchesAll(s);
    } else {
      assert (t + "%")[0] == t[0];
      assert (t + "%")[1..] == t[1..] + "%";
      if s != [] {
        PlainSearchIsPrefix(t[1..], s[1..]);
        if |t| <= |s| && forall i :: 0 <= i < |t| ==> Fold(t[i]) == Fold(s[i]) {
          assert forall i :: 0 <= i < |t[1..]| ==> Fold(t[1..][i]) == Fold(s[1..][i]) by {
            forall i | 0 <= i < |t[1..]| ensures Fold(t[1..][i]) == Fold(s[1..][i]) {
              assert t[1..][i] == t[i + 1] && s[1..][i] == s[i + 1];
            }
          }
        }
        if ILike(t + "%", s) {
          forall i | 0 <= i < |t| ensures Fold(t[i]) == Fold(s[i]) {
            if i > 0 {
              assert t[1..][i - 1] == t[i] && s[1..][i - 1] == s[i];
            }
          }
        }
      }
    }
  }

  /** The wildcards in a search are not escaped: a search of `_` matches
      every non-empty name. */
  lemma UnderscoreSearchMatchesAnyName(s: string)
    ensures SearchPattern(Text("_")) == Some("_%")
    ensures ILike("_%", s) <==> s != []
  {
    assert !IsSpace("_"[0]);
    assert "_" + "%" == "_%";
    if s != [] {
      PercentMatchesAll(s[1..]);
      assert "_%"[1..] == "%";
    }
  }

  // -----------------------------------------------------------------------
  // Listings

  /** The ids below `n` of the rows satisfying `keep`, in id order: the
      rows a `findAll` with that `where` returns. */
  function Select<V>(m: map<Id, V>, keep: V -> bool, n: nat): (ids: seq<Id>)
    ensures forall i :: 0 <= i < |ids| ==> ids[i] in m && ids[i] < n && keep(m[ids[i]])
    ensures forall i, j :: 0 <= i < j < |ids| ==> ids[i] < ids[j]
    ensures forall k :: k in m && k < n && keep(m[k]) ==> k in ids
  {
    if n == 0 then []
    else Select(m, keep, n - 1) + (if n - 1 in m && keep(m[n - 1]) then [n - 1] else [])
  }

  /** The rows with those ids, each with its id. */
  function RowsOf<V>(m: map<Id, V>, ids: seq<Id>): (rows: seq<(Id, V)>)
    requires forall i :: 0 <= i < |ids| ==> ids[i] in m
    ensures |rows| == |ids|
    ensures forall i :: 0 <= i < |rows| ==> rows[i] == (ids[i], m[ids[i]])
  {
    seq(|ids|, i requires 0 <= i < |ids| => (ids[i], m[ids[i]]))
  }

  /** The `where` clause of a name filter. */
  function NameFilter(pat: Option<string>): Product -> bool
  {
    (p: Product) => pat.None? || ILike(pat.value, p.name)
  }

  function VariantFilter(pat: Option<string>): Variant -> bool
  {
    (v: Variant) => pat.None? || ILike(pat.value, v.variantsName)
  }

  /** `getProduct`. */
  function GetProduct(products: map<Id, Product>, productId: Id): (r: Result<Product>)
    ensures r.Ok? <==> productId in products
    ensures r.Ok? ==> r.value == products[productId]
    ensures r.Err? ==> r.error == NotFound(PRODUCT_NOT_FOUND)
  {
    if productId in products then Ok(products[productId]) else Err(NotFound(PRODUCT_NOT_FOUND))
  }

  /** `getVariant`: every variant of an existing product, in id order. */
  function GetVariants(products: map<Id, Product>, variants: map<Id, Variant>, bound: nat, productId: Id)
    : (r: Result<seq<(Id, Variant)>>)
    requires forall k :: k in variants ==> k < bound
    ensures r.Err? <==> productId !in products
    ensures r.Err? ==> r.error == NotFound(PRODUCT_NOT_FOUND)
    ensures r.Ok? ==> forall i :: 0 <= i < |r.value| ==>
              r.value[i].0 in variants && variants[r.value[i].0] == r.value[i].1 && r.value[i].1.productId == productId
    ensures r.Ok? ==> forall k :: k in variants && variants[k].productId == productId ==>
              exists i :: 0 <= i < |r.value| && r.value[i].0 == k
  {
    if productId !in products then Err(NotFound(PRODUCT_NOT_FOUND))
    else
      var ids := Select(variants, (v: Variant) => v.productId == productId, bound);
      var rows := RowsOf(variants, ids);
      assert forall k :: k in variants && variants[k].productId == productId ==> rows[IndexOf(ids, k)].0 == k;
      Ok(rows)
  }

  function IndexOf(ids: seq<Id>, k: Id): (i: nat)
    requires k in ids
    ensures i < |ids| && ids[i] == k
  {
    if ids[0] == k then 0 else 1 + IndexOf(ids[1..], k)
  }

  /** The matching products of the typed listing, in id order. */
  function ProductMatches(products: map<Id, Product>, bound: nat, search: Search): seq<(Id, Product)>
  {
    var ids := Select(products, NameFilter(SearchPattern(search)), bound);
    RowsOf(products, ids)
  }

  /** `getAllProducts` as written in the typed service: the rows come from
      the clamped window of the pagination middleware, but the response's
      page arithmetic is computed from the raw query `page` and `limit`. */
  function ListProductsAsWritten(products: map<Id, Product>, bound: nat, search: Search,
                                 page: Option<int>, limit: Option<int>): (r: Paginate.Paged<(Id, Product)>)
    ensures var all := ProductMatches(products, bound, search);
            var w := Paginate.Paginate(page, limit);
            && r.pagination.total == |all|
            && r.pagination.page == page.GetOr(Paginate.DEFAULT_PAGE)
            && r.pagination.limit == limit.GetOr(Paginate.DEFAULT_LIMIT)
            && Paginate.Slice(all, Paginate.Window(w.limit, w.offset)) == Ok(r.data)
  {
    var all := ProductMatches(products, bound, search);
    var w := Paginate.Paginate(page, limit);
    var rows := Paginate.Slice(all, Paginate.Window(w.limit, w.offset)).value;
    Paginate.PaginatedResponse(Some(rows), |all|, page, limit)
  }

  /** With `limit` above the cap and more matches than the cap, the first
      page as written holds the capped number of rows and reports that no
      page follows, although matching rows remain. */
  lemma ListingStopsEarlyAsWritten(products: map<Id, Product>, bound: nat, search: Search, l: int)
    requires l > Paginate.MAX_LIMIT
    requires Paginate.MAX_LIMIT < |ProductMatches(products, bound, search)| <= l
    ensures var r := ListProductsAsWritten(products, bound, search, None, Some(l));
            && |r.data| == Paginate.MAX_LIMIT < r.pagination.total
            && !r.pagination.hasNextPage
  {
    var r := ListProductsAsWritten(products, bound, search, None, Some(l));
    assert r.pagination.limit == l > 0;
    Paginate.HasNextIffRowsRemain(Some(r.data), |ProductMatches(products, bound, search)|, None, Some(l));
  }

  /** A query `page=0` reads page 1 in the middleware but 0 in the
      response: a listing that fits on one page is answered with all its
      rows and a next page announced. */
  lemma ListingPageZeroAsWritten(products: map<Id, Product>, bound: nat, search: Search)
    requires 0 < |ProductMatches(products, bound, search)| <= Paginate.DEFAULT_LIMIT
    ensures var r := ListProductsAsWritten(products, bound, search, Some(0), None);
            && r.data == ProductMatches(products, bound, search)
            && r.pagination.page == 0
            && r.pagination.hasNextPage
  {
    var all := ProductMatches(products, bound, search);
    var r := ListProductsAsWritten(products, bound, search, Some(0), None);
    assert r.data == all[0..|all|];
    assert r.pagination.totalPages == Paginate.Finite(1) by {
      assert (r.pagination.totalPages.v - 1) * 10 < |all| <= r.pagination.totalPages.v * 10;
    }
  }

  /** A query `limit=0` reads the default limit in the middleware but 0 in
      the response, whose page count then divides by zero: every page,
      however far past the rows, announces a next one. */
  lemma ListingZeroLimitAsWritten(products: map<Id, Product>, bound: nat, search: Search, page: int)
    requires page >= 1
    requires |ProductMatches(products, bound, search)| > 0
    ensures var r := ListProductsAsWritten(products, bound, search, Some(page), Some(0));
            && r.pagination.limit == 0
            && r.pagination.totalPages == Paginate.PosInf
            && r.pagination.hasNextPage
  {
  }

  /** `getAllProducts` with the response arithmetic taken from the window
      the rows were read with. */
  function ListProducts(products: map<Id, Product>, bound: nat, search: Search,
                        page: Option<int>, limit: Option<int>): (r: Paginate.Paged<(Id, Product)>)
    ensures var all := ProductMatches(products, bound, search);
            var w := Paginate.Paginate(page, limit);
            && r.pagination.total == |all|
            && r.pagination.page == w.page && r.pagination.limit == w.limit
            && Paginate.Slice(all, Paginate.Window(w.limit, w.offset)) == Ok(r.data)
  {
    var all := ProductMatches(products, bound, search);
    var w := Paginate.Paginate(page, limit);
    var rows := Paginate.Slice(all, Paginate.Window(w.limit, w.offset)).value;
    Paginate.PaginatedResponse(Some(rows), |all|, Some(w.page), Some(w.limit))
  }

  /** In the corrected listing a next page is announced exactly when
      matching rows remain after this page. */
  lemma ListingHasNextIffRowsRemain(products: map<Id, Product>, bound: nat, search: Search,
                                    page: Option<int>, limit: Option<int>)
    ensures var r := ListProducts(products, bound, search, page, limit);
            var w := Paginate.Paginate(page, limit);
            r.pagination.hasNextPage <==> w.offset + |r.data| < r.pagination.total
  {
    var r := ListProducts(products, bound, search, page, limit);
    var w := Paginate.Paginate(page, limit);
    var count := |ProductMatches(products, bound, search)|;
    Paginate.HasNextIffRowsRemain(Some(r.data), count, Some(w.page), Some(w.limit));
    assert w.offset + w.limit == w.page * w.limit;
  }

  /** `getAllProducts` in the plain service: the filter may throw, the plain
      window may be negative (the database refuses it), and the response
      arithmetic uses the raw query values. */
  function ListProductsJs(products: map<Id, Product>, bound: nat, search: Search,
                          page: Option<int>, limit: Option<int>): (r: Result<(seq<(Id, Product)>, Paginate.PageInfoJs)>)
    ensures r.Err? <==> search.Structured? || Paginate.PaginateJs(page, limit).limit < 0
                                          || Paginate.PaginateJs(page, limit).offset < 0
    ensures r.Ok? ==> Paginate.Slice(ProductMatches(products, bound, search), Paginate.PaginateJs(page, limit)) == Ok(r.value.0)
    ensures r.Ok? ==> r.value.1.total == |ProductMatches(products, bound, search)|
  {
    match SearchPatternJs(search)
    case Err(e) => Err(e)
    case Ok(_) =>
      var all := ProductMatches(products, bound, search);
      match Paginate.Slice(all, Paginate.PaginateJs(page, limit))
      case Err(e) => Err(e)
      case Ok(rows) => Ok(Paginate.PaginatedResponseJs(rows, |all|, page, limit))
  }

  /** For a string search and query values inside the typed middleware's
      range, both services return the same rows. */
  lemma ListingsAgreeInRange(products: map<Id, Product>, bound: nat, search: Search,
                             page: Option<int>, limit: Option<int>)
    requires !search.Structured?
    requires page.None? || page.value >= 1
    requires limit.None? || 1 <= limit.value <= Paginate.MAX_LIMIT
    ensures ListProductsJs(products, bound, search, page, limit).Ok?
    ensures ListProductsJs(products, bound, search, page, limit).value.0
            == ListProductsAsWritten(products, bound, search, page, limit).data
  {
    Paginate.MiddlewaresAgreeInRange(page, limit);
  }

  /** The matching variants, in id order. */
  function VariantMatches(variants: map<Id, Variant>, bound: nat, pat: Option<string>): seq<(Id, Variant)>
  {
    RowsOf(variants, Select(variants, VariantFilter(pat), bound))
  }

  /** `getAllVariants` in the typed service: one clamped window of the
      variants whose name matches the search; no page arithmetic. */
  function ListVariants(variants: map<Id, Variant>, bound: nat, search: Search,
                        page: Option<int>, limit: Option<int>): (rows: seq<(Id, Variant)>)
    ensures var w := Paginate.Paginate(page, limit);
            Paginate.Slice(VariantMatches(variants, bound, SearchPattern(search)), Paginate.Window(w.limit, w.offset)) == Ok(rows)
    ensures |rows| <= Paginate.MAX_LIMIT
  {
    var w := Paginate.Paginate(page, limit);
    Paginate.Slice(VariantMatches(variants, bound, SearchPattern(search)), Paginate.Window(w.limit, w.offset)).value
  }

  /** `getAllVariants` in the plain service: any error, the search that is
      not a string and the negative window alike, is answered with 500. */
  function ListVariantsJs(variants: map<Id, Variant>, bound: nat, search: Search,
                          page: Option<int>, limit: Option<int>): (r: Result<seq<(Id, Variant)>>)
    ensures r.Err? <==> search.Structured? || Paginate.PaginateJs(page, limit).limit < 0
                                          || Paginate.PaginateJs(page, limit).offset < 0
    ensures r.Err? ==> r.error == ServerError(INTERNAL_SERVER_ERROR)
    ensures r.Ok? ==> Paginate.Slice(VariantMatches(variants, bound, SearchPattern(search)), Paginate.PaginateJs(page, limit)) == Ok(r.value)
  {
    match SearchPatternJs(search)
    case Err(_) => Err(ServerError(INTERNAL_SERVER_ERROR))
    case Ok(pat) =>
      match Paginate.Slice(VariantMatches(variants, bound, pat), Paginate.PaginateJs(page, limit))
      case Err(_) => Err(ServerError(INTERNAL_SERVER_ERROR))
      case Ok(rows) => Ok(rows)
  }
}
