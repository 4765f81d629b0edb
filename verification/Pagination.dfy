/** Paging of card transactions, in the machine's 64-bit integers. */
module Pagination {
  import opened Wrappers
  import opened Decimal

  const DEFAULT_PAGE_SIZE: nat := 20
  const MAX_PAGE_SIZE: nat := 200

  /** Two's complement wrap-around of 64-bit arithmetic. */
  function Wrap64(x: int): (w: int)
    ensures MIN_INT64 <= w <= MAX_INT64
    ensures MIN_INT64 <= x <= MAX_INT64 ==> w == x
  {
    (x + 0x8000_0000_0000_0000) % 0x1_0000_0000_0000_0000 - 0x8000_0000_0000_0000
  }

  datatype Sliced<T> = Window(items: seq<T>) | Panic

  /** `items[start:end]`. */
  function Slice<T>(items: seq<T>, start: int, end: int): Sliced<T> {
    if 0 <= start <= end <= |items| then Window(items[start..end]) else Panic
  }

  function Paginate<T>(items: seq<T>, pageNumber: int, pageSize: int): Sliced<T> {
    var start := Wrap64(Wrap64(pageNumber - 1) * pageSize);
    if start >= |items| then Window([])
    else
      var end := Wrap64(start + pageSize);
      Slice(items, start, if end > |items| then |items| else end)
  }

  function TotalPages(totalRecords: nat, pageSize: int): nat {
    if pageSize <= 0 then 0
    else
      var pages := (totalRecords + pageSize - 1) / pageSize;
      if pages == 0 then 1 else pages
  }

  // ----- what a page should be -----

  /** The items with indices (n-1)*size to n*size - 1, as far as they exist. */
  function PageOf<T>(items: seq<T>, n: nat, size: nat): seq<T>
    requires n > 0
  {
    items[Min((n - 1) * size, |items|)..Min((n - 1) * size + size, |items|)]
  }

  /** For page sizes the parser lets through and lists that fit in memory, the
      program's page is the right one exactly when the start index does not
      overflow, or overflows past the end of the list all the same. */
  lemma PaginateCorrectIff<T>(items: seq<T>, n: nat, size: nat)
    requires 0 < n <= MAX_INT64 && 0 < size <= MAX_PAGE_SIZE && |items| < 0x4000_0000_0000_0000
    ensures Paginate(items, n, size) == Window(PageOf(items, n, size))
       <==> (n - 1) * size <= MAX_INT64 || Wrap64((n - 1) * size) >= |items|
  {
    var true_start := (n - 1) * size;
    assert true_start >= 0;
    if true_start > MAX_INT64 {
      assert PageOf(items, n, size) == [];
    }
  }

  /** Page number 2^63 - 1 with two items a page: the start wraps to -4. */
  lemma HugePageNumberPanics<T>(items: seq<T>)
    ensures Paginate(items, MAX_INT64, 2) == Panic
  { }

  /** The first k pages. */
  function Pages<T>(items: seq<T>, size: nat, k: nat): seq<T> {
    if k == 0 then [] else Pages(items, size, k - 1) + PageOf(items, k, size)
  }

  lemma {:induction false} PagesArePrefix<T>(items: seq<T>, size: nat, k: nat)
    ensures Pages(items, size, k) == items[..Min(k * size, |items|)]
  {
    if k > 0 {
      PagesArePrefix(items, size, k - 1);
      assert k * size == (k - 1) * size + size;
      assert (k - 1) * size >= 0;
    }
  }

  lemma EnoughPages(total: nat, size: nat)
    requires size > 0
    ensures TotalPages(total, size) >= 1
    ensures total <= TotalPages(total, size) * size
    ensures if total > 0 then (TotalPages(total, size) - 1) * size < total else TotalPages(total, size) == 1
  {
    var p := (total + size - 1) / size;
    assert total + size - 1 == p * size + (total + size - 1) % size;
    assert (p - 1) * size == p * size - size;
  }

  lemma FullPage<T>(items: seq<T>, size: nat, n: nat)
    requires n > 0 && n * size <= |items|
    ensures |PageOf(items, n, size)| == size
  {
    assert (n - 1) * size + size == n * size;
    assert (n - 1) * size >= 0;
  }

  /** Pages 1 to totalPages put together are the list, each item once and in order;
      every page but the last is full and the last is not empty unless the list is;
      a page past the end is empty. */
  lemma PagesCoverTheList<T>(items: seq<T>, size: nat)
    requires size > 0
    ensures var last := TotalPages(|items|, size);
            && last >= 1
            && Pages(items, size, last) == items
            && (forall n: nat :: 0 < n < last ==> |PageOf(items, n, size)| == size)
            && (items != [] ==> PageOf(items, last, size) != [])
            && (forall n: nat :: n > last ==> PageOf(items, n, size) == [])
  {
    hide TotalPages, PageOf;
    var last := TotalPages(|items|, size);
    EnoughPages(|items|, size);
    PagesArePrefix(items, size, last);
    forall n: nat | 0 < n < last ensures |PageOf(items, n, size)| == size {
      MulMonotone(n, last - 1, size);
      FullPage(items, size, n);
    }
    if items != [] { StartedPage(items, last, size); }
    forall n: nat | n > last ensures PageOf(items, n, size) == [] {
      MulMonotone(last, n - 1, size);
      PastPage(items, n, size);
    }
  }

  lemma MulMonotone(a: int, b: int, size: nat)
    requires a <= b
    ensures a * size <= b * size
  { }

  lemma StartedPage<T>(items: seq<T>, n: nat, size: nat)
    requires n > 0 && size > 0 && (n - 1) * size < |items|
    ensures PageOf(items, n, size) != []
  {
    assert (n - 1) * size >= 0;
  }

  lemma PastPage<T>(items: seq<T>, n: nat, size: nat)
    requires n > 0 && (n - 1) * size >= |items|
    ensures PageOf(items, n, size) == []
  { }

  // ----- the query parameters -----

  /** Absent, malformed and non-positive parameters keep the defaults; the page size
      is capped. */
  method ParsePagination(rawNumber: string, rawSize: string) returns (pageNumber: int, pageSize: int)
    ensures 0 < pageNumber <= MAX_INT64 && 0 < pageSize <= 200
    ensures pageNumber == match ParseInt(rawNumber) case Some(v) => if v > 0 then v else 1 case None => 1
    ensures pageSize == match ParseInt(rawSize)
                        case Some(v) => if v > 0 then Min(v, 200) else 20
                        case None => 20
  {
    pageNumber, pageSize := 1, DEFAULT_PAGE_SIZE;
    if rawNumber != "" {
      var v := ParseInt(rawNumber);
      if v != None && v.value > 0 { pageNumber := v.value; }
    }
    if rawSize != "" {
      var v := ParseInt(rawSize);
      if v != None && v.value > 0 {
        pageSize := v.value;
        if pageSize > MAX_PAGE_SIZE { pageSize := MAX_PAGE_SIZE; }
      }
    }
  }
}
