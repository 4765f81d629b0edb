/** A user's transactions, and withdrawals, "most recent first". */
module TransactionListing {
  import opened Wrappers

  datatype Record = Record(id: string, depositType: string, status: int, createdAt: int)

  // ----- the order -----

  /** x goes after every record that is not older than it. */
  function Insert(sorted: seq<Record>, x: Record): (r: seq<Record>)
    ensures |r| == |sorted| + 1
  {
    if sorted == [] then [x]
    else
      var last := sorted[|sorted| - 1];
      if last.createdAt < x.createdAt then Insert(sorted[..|sorted| - 1], x) + [last] else sorted + [x]
  }

  /** The stable sort by creation time, newest first. */
  function NewestFirst(list: seq<Record>): (r: seq<Record>)
    ensures |r| == |list|
  {
    if list == [] then [] else Insert(NewestFirst(list[..|list| - 1]), list[|list| - 1])
  }

  predicate Descending(list: seq<Record>) {
    forall i, j :: 0 <= i < j < |list| ==> list[i].createdAt >= list[j].createdAt
  }

  /** The records of one moment, in their order. */
  function AtTime(list: seq<Record>, t: int): seq<Record> {
    if list == [] then []
    else
      var last := list[|list| - 1];
      AtTime(list[..|list| - 1], t) + if last.createdAt == t then [last] else []
  }

  lemma {:induction false} InsertDescending(sorted: seq<Record>, x: Record)
    requires Descending(sorted)
    ensures Descending(Insert(sorted, x))
    ensures forall r :: r in Insert(sorted, x) ==> r in sorted || r == x
  {
    if sorted != [] && sorted[|sorted| - 1].createdAt < x.createdAt {
      var last, rest := sorted[|sorted| - 1], sorted[..|sorted| - 1];
      InsertDescending(rest, x);
      var front := Insert(rest, x);
      assert forall k :: 0 <= k < |rest| ==> rest[k] == sorted[k] && sorted[k].createdAt >= last.createdAt;
      assert forall r :: r in rest ==> r.createdAt >= last.createdAt;
      assert forall i :: 0 <= i < |front| ==> front[i] in front && front[i].createdAt >= last.createdAt;
    }
  }

  lemma AtTimeMore(list: seq<Record>, x: Record, t: int)
    ensures AtTime(list + [x], t) == AtTime(list, t) + if x.createdAt == t then [x] else []
  {
    assert (list + [x])[..|list|] == list;
  }

  lemma {:induction false} NoneAtTime(list: seq<Record>, t: int)
    requires forall i :: 0 <= i < |list| ==> list[i].createdAt != t
    ensures AtTime(list, t) == []
  {
    if list != [] { NoneAtTime(list[..|list| - 1], t); }
  }

  lemma {:induction false} InsertAtTime(sorted: seq<Record>, x: Record, t: int)
    requires Descending(sorted)
    ensures AtTime(Insert(sorted, x), t) == AtTime(sorted, t) + if x.createdAt == t then [x] else []
  {
    if sorted == [] {
      AtTimeMore([], x, t);
    } else {
      var last, rest := sorted[|sorted| - 1], sorted[..|sorted| - 1];
      if last.createdAt < x.createdAt {
        InsertAtTime(rest, x, t);
        AtTimeMore(Insert(rest, x), last, t);
      } else {
        AtTimeMore(sorted, x, t);
      }
    }
  }

  /** The listing is in falling order of time and keeps the records of each moment,
      all of them, in the order they were created. */
  lemma {:induction false} NewestFirstIsStableSort(list: seq<Record>, t: int)
    ensures Descending(NewestFirst(list)) && AtTime(NewestFirst(list), t) == AtTime(list, t)
  {
    if list != [] {
      var rest := list[..|list| - 1];
      NewestFirstIsStableSort(rest, t);
      InsertDescending(NewestFirst(rest), list[|list| - 1]);
      InsertAtTime(NewestFirst(rest), list[|list| - 1], t);
    }
  }

  // ----- is it really the most recent first? -----

  function Reverse(list: seq<Record>): (r: seq<Record>)
    ensures |r| == |list| && forall i :: 0 <= i < |list| ==> r[i] == list[|list| - 1 - i]
  {
    if list == [] then [] else [list[|list| - 1]] + Reverse(list[..|list| - 1])
  }

  lemma {:induction false} InsertInFront(sorted: seq<Record>, x: Record)
    requires forall i :: 0 <= i < |sorted| ==> sorted[i].createdAt < x.createdAt
    ensures Insert(sorted, x) == [x] + sorted
  {
    if sorted != [] { InsertInFront(sorted[..|sorted| - 1], x); }
  }

  lemma {:induction false} RisingReverses(list: seq<Record>)
    requires forall i, j :: 0 <= i < j < |list| ==> list[i].createdAt < list[j].createdAt
    ensures NewestFirst(list) == Reverse(list)
  {
    if list != [] {
      var rest := list[..|list| - 1];
      RisingReverses(rest);
      InsertInFront(Reverse(rest), list[|list| - 1]);
    }
  }

  /** Where a record of the moment stands among those of the moment. */
  lemma {:induction false} AtTimeKeepsOrder(list: seq<Record>, i: nat, j: nat)
    requires i < j < |list| && list[i].createdAt == list[j].createdAt
    ensures var at := AtTime(list, list[i].createdAt);
            exists a, b :: 0 <= a < b < |at| && at[a] == list[i] && at[b] == list[j]
  {
    var t, n := list[i].createdAt, |list| - 1;
    var rest := list[..n];
    if j < n {
      AtTimeKeepsOrder(rest, i, j);
      var a, b :| 0 <= a < b < |AtTime(rest, t)| && AtTime(rest, t)[a] == rest[i] && AtTime(rest, t)[b] == rest[j];
      assert AtTime(list, t)[a] == list[i] && AtTime(list, t)[b] == list[j];
    } else {
      var a := AtTimeHas(rest, i);
      assert AtTime(list, t)[a] == list[i] && AtTime(list, t)[|AtTime(rest, t)|] == list[j];
    }
  }

  lemma {:induction false} AtTimeHas(list: seq<Record>, i: nat) returns (a: nat)
    requires i < |list|
    ensures a < |AtTime(list, list[i].createdAt)| && AtTime(list, list[i].createdAt)[a] == list[i]
  {
    if i == |list| - 1 { a := |AtTime(list[..i], list[i].createdAt)|; }
    else { a := AtTimeHas(list[..|list| - 1], i); }
  }

  /** The records of a moment appear in the list in the order of `AtTime`. */
  lemma {:induction false} AtTimeInList(list: seq<Record>, t: int, a: nat, b: nat) returns (i: nat, j: nat)
    requires a < b < |AtTime(list, t)|
    ensures i < j < |list| && list[i] == AtTime(list, t)[a] && list[j] == AtTime(list, t)[b]
  {
    var n := |list| - 1;
    if b < |AtTime(list[..n], t)| { i, j := AtTimeInList(list[..n], t, a, b); }
    else { i := AtTimeAt(list[..n], t, a); j := n; }
  }

  lemma {:induction false} AtTimeAt(list: seq<Record>, t: int, a: nat) returns (i: nat)
    requires a < |AtTime(list, t)|
    ensures i < |list| && list[i] == AtTime(list, t)[a]
  {
    var n := |list| - 1;
    if a < |AtTime(list[..n], t)| { i := AtTimeAt(list[..n], t, a); } else { i := n; }
  }

  /** With a clock that never goes back and distinct records, the listing is the
      reverse of the order of creation exactly when no two were created at the same
      instant: records of one instant come oldest first. */
  lemma ListingReversesCreationIff(list: seq<Record>)
    requires forall i, j :: 0 <= i < j < |list| ==> list[i].createdAt <= list[j].createdAt && list[i] != list[j]
    ensures NewestFirst(list) == Reverse(list)
       <==> forall i, j :: 0 <= i < j < |list| ==> list[i].createdAt < list[j].createdAt
  {
    hide NewestFirst, AtTime, Descending;
    if forall i, j :: 0 <= i < j < |list| ==> list[i].createdAt < list[j].createdAt {
      RisingReverses(list);
    } else {
      var i, j :| 0 <= i < j < |list| && list[i].createdAt == list[j].createdAt;
      var t := list[i].createdAt;
      NewestFirstIsStableSort(list, t);
      AtTimeKeepsOrder(list, i, j);
      var at := AtTime(list, t);
      var a, b :| 0 <= a < b < |at| && at[a] == list[i] && at[b] == list[j];
      var p, q := AtTimeInList(NewestFirst(list), t, a, b);
      assert Reverse(list)[p] == list[|list| - 1 - p] && Reverse(list)[q] == list[|list| - 1 - q];
    }
  }

  // ----- the calls -----

  /** The user's records, in index order; ids without a record are passed over. */
  function Found(ids: seq<string>, records: map<string, Record>): seq<Record> {
    if ids == [] then []
    else
      var id := ids[|ids| - 1];
      Found(ids[..|ids| - 1], records) + if id in records then [records[id]] else []
  }

  method ListTransactionsByUser(ids: seq<string>, records: map<string, Record>) returns (list: seq<Record>)
    ensures list == NewestFirst(Found(ids, records))
  {
    list := [];
    for i := 0 to |ids|
      invariant list == Found(ids[..i], records)
    {
      assert ids[..i + 1][..i] == ids[..i];
      if ids[i] in records { list := list + [records[ids[i]]]; }
    }
    assert ids[..|ids|] == ids;
    list := NewestFirst(list);
  }

  datatype StatusFilter = All | Only(status: int) | Unknown

  function ParseFilter(text: string): StatusFilter {
    if text == "" then All
    else if text == "pending" then Only(1)
    else if text == "completed" then Only(100)
    else if text == "failed" || text == "rejected" then Only(3)
    else Unknown
  }

  predicate Wanted(filter: StatusFilter, r: Record) {
    r.depositType == "withdrawal" && match filter case All => true case Only(s) => r.status == s case Unknown => false
  }

  /** The wanted records of a list, in its order. */
  function Select(filter: StatusFilter, list: seq<Record>): seq<Record> {
    if list == [] then []
    else
      var last := list[|list| - 1];
      Select(filter, list[..|list| - 1]) + if Wanted(filter, last) then [last] else []
  }

  /** Each wanted record is selected as often as it occurs, and no other is. */
  lemma {:induction false} SelectKeepsWanted(filter: StatusFilter, list: seq<Record>, x: Record)
    ensures multiset(Select(filter, list))[x] == if Wanted(filter, x) then multiset(list)[x] else 0
  {
    hide Wanted;
    if list != [] {
      var last, rest := list[|list| - 1], list[..|list| - 1];
      SelectKeepsWanted(filter, rest, x);
      assert list == rest + [last];
    }
  }

  /** A falling list stays falling. */
  lemma {:induction false} SelectDescending(filter: StatusFilter, list: seq<Record>)
    requires Descending(list)
    ensures Descending(Select(filter, list))
    ensures forall r :: r in Select(filter, list) ==> r in list
  {
    hide Wanted;
    if list != [] {
      var last, rest := list[|list| - 1], list[..|list| - 1];
      SelectDescending(filter, rest);
      assert forall k :: 0 <= k < |rest| ==> rest[k] == list[k] && list[k].createdAt >= last.createdAt;
      var chosen := Select(filter, rest);
      assert forall i :: 0 <= i < |chosen| ==> chosen[i] in chosen && chosen[i] in rest;
    }
  }

  lemma {:induction false} InsertKeeps(sorted: seq<Record>, x: Record)
    ensures multiset(Insert(sorted, x)) == multiset(sorted) + multiset{x}
  {
    if sorted != [] {
      var last, rest := sorted[|sorted| - 1], sorted[..|sorted| - 1];
      assert sorted == rest + [last];
      if last.createdAt < x.createdAt { InsertKeeps(rest, x); }
    }
  }

  lemma {:induction false} SortKeeps(list: seq<Record>)
    ensures multiset(NewestFirst(list)) == multiset(list)
  {
    if list != [] {
      var last, rest := list[|list| - 1], list[..|list| - 1];
      SortKeeps(rest);
      InsertKeeps(NewestFirst(rest), last);
      assert list == rest + [last];
    }
  }

  /** How often a record stands in the user's index. */
  function Indexed(ids: seq<string>, records: map<string, Record>, x: Record): nat {
    if ids == [] then 0
    else (if ids[0] in records && records[ids[0]] == x then 1 else 0) + Indexed(ids[1..], records, x)
  }

  lemma {:induction false} IndexedMore(ids: seq<string>, id: string, records: map<string, Record>, x: Record)
    ensures Indexed(ids + [id], records, x)
         == Indexed(ids, records, x) + if id in records && records[id] == x then 1 else 0
  {
    var all := ids + [id];
    if ids == [] {
      assert all == [id] && all[1..] == [];
    } else {
      IndexedMore(ids[1..], id, records, x);
      assert all[1..] == ids[1..] + [id];
    }
  }

  lemma {:induction false} FoundIsIndexed(ids: seq<string>, records: map<string, Record>, x: Record)
    ensures multiset(Found(ids, records))[x] == Indexed(ids, records, x)
  {
    if ids != [] {
      var last, rest := ids[|ids| - 1], ids[..|ids| - 1];
      FoundIsIndexed(rest, records, x);
      IndexedMore(rest, last, records, x);
      assert ids == rest + [last];
    }
  }

  /** What a caller may ask for. */
  predicate Asked(text: string, r: Record) {
    && r.depositType == "withdrawal"
    && (text == "pending" ==> r.status == 1) && (text == "completed" ==> r.status == 100)
    && (text == "failed" || text == "rejected" ==> r.status == 3)
  }

  /** A listing by the text of its filter: refused for any other text than these
      five, and else it has each withdrawal of the user with the status that was
      asked for, as often as it is in his index, no other transaction, and the
      newest first. */
  lemma WithdrawalsAreListed(text: string, ids: seq<string>, records: map<string, Record>, x: Record)
    ensures ParseFilter(text) != Unknown <==> text in {"", "pending", "completed", "failed", "rejected"}
    ensures ParseFilter(text) != Unknown ==>
              var listed := Select(ParseFilter(text), NewestFirst(Found(ids, records)));
              && multiset(listed)[x] == (if Asked(text, x) then Indexed(ids, records, x) else 0)
              && Descending(listed)
  {
    FilterMeans(text, x);
    hide ParseFilter, Wanted, Asked;
    SortKeeps(Found(ids, records));
    FoundIsIndexed(ids, records, x);
    SelectKeepsWanted(ParseFilter(text), NewestFirst(Found(ids, records)), x);
    NewestFirstIsStableSort(Found(ids, records), 0);
    SelectDescending(ParseFilter(text), NewestFirst(Found(ids, records)));
  }

  lemma FilterMeans(text: string, r: Record)
    ensures ParseFilter(text) != Unknown <==> text in {"", "pending", "completed", "failed", "rejected"}
    ensures ParseFilter(text) != Unknown ==> (Wanted(ParseFilter(text), r) <==> Asked(text, r))
  { }

  /** An unknown filter is refused; otherwise the wanted records are listed. */
  method ListWithdrawals(filterText: string, ids: seq<string>, records: map<string, Record>)
    returns (r: Option<seq<Record>>)
    ensures r == if ParseFilter(filterText) == Unknown then None
                 else Some(Select(ParseFilter(filterText), NewestFirst(Found(ids, records))))
  {
    var filter := ParseFilter(filterText);
    if filter == Unknown { return None; }
    var all := ListTransactionsByUser(ids, records);
    var withdrawals := [];
    for i := 0 to |all|
      invariant withdrawals == Select(filter, all[..i])
    {
      assert all[..i + 1][..i] == all[..i];
      if all[i].depositType != "withdrawal" { continue; }
      if filter != All && all[i].status != filter.status { continue; }
      withdrawals := withdrawals + [all[i]];
    }
    assert all[..|all|] == all;
    return Some(withdrawals);
  }
}
