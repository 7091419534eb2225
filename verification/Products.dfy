/** The public product list: page slicing and the page count. */
module Products {

  function Min(a: int, b: int): int {
    if a < b then a else b
  }

  /** `skip: (page - 1) * limit, take: limit` over the listed products in their fixed order. */
  function Page<T>(products: seq<T>, page: nat, limit: nat): seq<T>
    requires page >= 1 && limit >= 1
  {
    var skip := (page - 1) * limit;
    if skip >= |products| then [] else products[skip..Min(skip + limit, |products|)]
  }

  /** `Math.ceil(total / limit)`. */
  function TotalPages(total: nat, limit: nat): nat
    requires limit >= 1
  {
    (total + limit - 1) / limit
  }

  function FirstPages<T>(products: seq<T>, count: nat, limit: nat): seq<T>
    requires limit >= 1
  {
    if count == 0 then [] else FirstPages(products, count - 1, limit) + Page(products, count, limit)
  }

  lemma {:induction false} FirstPagesArePrefix<T>(products: seq<T>, count: nat, limit: nat)
    requires limit >= 1
    ensures FirstPages(products, count, limit) == products[..Min(count * limit, |products|)]
  {
    if count > 0 {
      FirstPagesArePrefix(products, count - 1, limit);
      assert count * limit == (count - 1) * limit + limit;
    }
  }

  /** The page count is the least number of pages that holds everything. */
  lemma TotalPagesBounds(total: nat, limit: nat)
    requires limit >= 1
    ensures total <= TotalPages(total, limit) * limit < total + limit
  {
    var n := total + limit - 1;
    assert n == n / limit * limit + n % limit;
  }

  lemma FullPage<T>(products: seq<T>, page: nat, limit: nat)
    requires limit >= 1 && 1 <= page < TotalPages(|products|, limit)
    ensures |Page(products, page, limit)| == limit
  {
    var total := TotalPages(|products|, limit);
    TotalPagesBounds(|products|, limit);
    MulMonotone(page, total - 1, limit);
    assert total * limit == (total - 1) * limit + limit && page * limit == (page - 1) * limit + limit;
  }

  lemma LastPage<T>(products: seq<T>, limit: nat)
    requires limit >= 1 && |products| > 0
    ensures TotalPages(|products|, limit) >= 1
    ensures 1 <= |Page(products, TotalPages(|products|, limit), limit)| <= limit
  {
    var total := TotalPages(|products|, limit);
    TotalPagesBounds(|products|, limit);
    assert total * limit == (total - 1) * limit + limit;
  }

  lemma PagesBeyondAreEmpty<T>(products: seq<T>, page: nat, limit: nat)
    requires limit >= 1 && page > TotalPages(|products|, limit)
    ensures Page(products, page, limit) == []
  {
    TotalPagesBounds(|products|, limit);
    MulMonotone(TotalPages(|products|, limit), page - 1, limit);
  }

  /** Pages 1 to `totalPages` are the whole list in order; all but the last are full, and the last is not empty. */
  lemma PagesAreTheList<T>(products: seq<T>, limit: nat)
    requires limit >= 1
    ensures FirstPages(products, TotalPages(|products|, limit), limit) == products
    ensures forall page :: 1 <= page < TotalPages(|products|, limit) ==> |Page(products, page, limit)| == limit
    ensures |products| > 0 ==>
              TotalPages(|products|, limit) >= 1 && 1 <= |Page(products, TotalPages(|products|, limit), limit)| <= limit
    ensures forall page :: page > TotalPages(|products|, limit) ==> Page(products, page, limit) == []
  {
    hide TotalPages, Page;
    var total := TotalPages(|products|, limit);
    TotalPagesBounds(|products|, limit);
    FirstPagesArePrefix(products, total, limit);
    forall page | 1 <= page < total ensures |Page(products, page, limit)| == limit {
      FullPage(products, page, limit);
    }
    if |products| > 0 {
      LastPage(products, limit);
    }
    forall page | page > total ensures Page(products, page, limit) == [] {
      PagesBeyondAreEmpty(products, page, limit);
    }
  }

  lemma MulMonotone(a: int, b: int, c: nat)
    requires a <= b
    ensures a * c <= b * c
  {
  }
}
