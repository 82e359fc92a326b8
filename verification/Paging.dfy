/**
 The client's page tokens: 1-based page numbers printed in decimal, advanced from the page size
 and total the server reports. Go's int is 64 bits wide, so the product may wrap.
 */
module Paging {

  import opened Text
  import opened Sequences

  datatype Pagination = Pagination(pageSize: string, totalAvailable: string)

  /** parsePageToken. */
  function ParsePageToken(token: string): (page: int)
    ensures 1 <= page <= MAX_INT64
  {
    if token == "" then 1
    else
      match Atoi(token)
      case None => 1
      case Some(page) => if page < 1 then 1 else page
  }

  /** getNextPageToken; "" means there are no more pages. */
  function GetNextPageToken(currentPage: int, pag: Pagination): string {
    var pageSize := Atoi(pag.pageSize);
    if pageSize.None? || pageSize.value <= 0 then ""
    else
      var totalAvailable := Atoi(pag.totalAvailable);
      if totalAvailable.None? then ""
      else if Wrap64(currentPage * pageSize.value) >= totalAvailable.value then ""
      else Itoa(Wrap64(currentPage + 1))
  }

  /**
   A printed page number is read back; a number below 1 or beyond 64 bits, and anything unreadable, asks for
   the first page.
   */
  lemma ParsePrinted(page: int, token: string)
    ensures ParsePageToken(Itoa(page)) == if 1 <= page <= MAX_INT64 then page else 1
    ensures Atoi(token).None? ==> ParsePageToken(token) == 1
    ensures Itoa(page) != ""
  {
    AtoiItoa(page);
  }

  /** With a readable report the next token is the next page, unless the (wrapped) product reaches the total. */
  lemma NextOfReport(page: int, size: int, total: int)
    requires 1 <= page < MAX_INT64 && 1 <= size <= MAX_INT64 && MIN_INT64 <= total <= MAX_INT64
    ensures GetNextPageToken(page, Pagination(Itoa(size), Itoa(total)))
      == if Wrap64(page * size) >= total then "" else Itoa(page + 1)
  {
    AtoiItoa(size);
    AtoiItoa(total);
  }

  /** A report ends the walk if a number cannot be read, or the page size is not positive. */
  lemma BadReportEnds(page: int, pag: Pagination)
    requires Atoi(pag.pageSize).None? || Atoi(pag.pageSize).value <= 0 || Atoi(pag.totalAvailable).None?
    ensures GetNextPageToken(page, pag) == ""
  {
  }

  // ------------------------------------------------------------ following the tokens

  /** A paged enumeration: what a call with a token returns, and the token for the next call. */
  datatype Pager<!K, T> = Pager(page: K -> seq<T>, next: K -> K)

  /** The token of the n-th call (from 0) when every returned token is sent back. */
  function TokenAt<K, T>(pager: Pager<K, T>, start: K, n: nat): K {
    if n == 0 then start else pager.next(TokenAt(pager, start, n - 1))
  }

  /** The pages received in the first n calls. */
  function Pages<K, T>(pager: Pager<K, T>, start: K, n: nat): seq<seq<T>> {
    seq(n, i requires 0 <= i < n => pager.page(TokenAt(pager, start, i)))
  }

  /**
   The walk from the empty token `start` ends after exactly k calls, repeats no token on the way, and
   brings `records` in order, each once.
   */
  ghost predicate Delivers<K(!new), T(!new)>(pager: Pager<K, T>, start: K, records: seq<T>, k: nat) {
    && k >= 1
    && (forall i :: 0 < i < k ==> TokenAt(pager, start, i) != start)
    && (forall i, j :: 0 <= i < j < k ==> TokenAt(pager, start, i) != TokenAt(pager, start, j))
    && TokenAt(pager, start, k) == start
    && Flatten(Pages(pager, start, k)) == records
  }

  /**
   A walk in which some calls fail comes to its end after j answered calls: `complete` if the last of them
   returned the empty token, and otherwise because the next call fails.
   */
  ghost predicate EndsAfter<K, T>(pager: Pager<K, T>, start: K, fails: K -> bool, j: nat, complete: bool) {
    && (forall i :: 0 < i < j ==> TokenAt(pager, start, i) != start)
    && (forall i :: 0 <= i < j ==> !fails(TokenAt(pager, start, i)))
    && if complete then j > 0 && TokenAt(pager, start, j) == start
       else (j > 0 ==> TokenAt(pager, start, j) != start) && fails(TokenAt(pager, start, j))
  }

  /** A walk ends in one way only. */
  lemma EndsOnce<K, T>(pager: Pager<K, T>, start: K, fails: K -> bool, j: nat, complete: bool, j': nat, complete': bool)
    requires EndsAfter(pager, start, fails, j, complete) && EndsAfter(pager, start, fails, j', complete')
    ensures j == j' && complete == complete'
  {
  }

  /** No call fails. */
  function Never<K>(): K -> bool {
    key => false
  }

  lemma DeliversEnds<K(!new), T(!new)>(pager: Pager<K, T>, start: K, records: seq<T>, k: nat)
    requires Delivers(pager, start, records, k)
    ensures EndsAfter(pager, start, Never(), k, true)
  {
  }

  /** A caller that keeps only some records of each page ends up with the filtered list. */
  lemma KeepsExactly<K(!new), T(!new)>(pager: Pager<K, T>, start: K, records: seq<T>, k: nat, keep: T -> bool)
    requires Delivers(pager, start, records, k)
    ensures Flatten(FilterEach(keep, Pages(pager, start, k))) == Filter(keep, records)
  {
    FilterPages(keep, Pages(pager, start, k));
  }

  /**
   A caller that emits one item for each record it keeps of each page emits, in all, one per kept record of
   the list.
   */
  lemma EmitsExactly<K(!new), T(!new), G>(pager: Pager<K, T>, start: K, records: seq<T>, k: nat,
                                          keep: T -> bool, emit: T -> G)
    requires Delivers(pager, start, records, k)
    ensures Flatten(MapEach(emit, FilterEach(keep, Pages(pager, start, k)))) == Map(emit, Filter(keep, records))
  {
    KeepsExactly(pager, start, records, k, keep);
    MapPages(emit, FilterEach(keep, Pages(pager, start, k)));
  }

  lemma {:induction false} TokensFollow<K, T>(pager: Pager<K, T>, start: K, name: nat -> K, i: nat)
    requires name(0) == start && forall j: nat :: j < i ==> pager.next(name(j)) == name(j + 1)
    ensures TokenAt(pager, start, i) == name(i)
  {
    if i > 0 {
      TokensFollow(pager, start, name, i - 1);
    }
  }

  /** One more call brings one more page. */
  lemma PagesMore<K, T>(pager: Pager<K, T>, start: K, n: nat)
    ensures Flatten(Pages(pager, start, n + 1))
      == Flatten(Pages(pager, start, n)) + pager.page(TokenAt(pager, start, n))
  {
    var last := pager.page(TokenAt(pager, start, n));
    assert Pages(pager, start, n + 1) == Pages(pager, start, n) + [last];
    FlattenMore(Pages(pager, start, n), last);
  }

  // --------------------------------------------------------------- a steady server

  /** What a server with page size `size` returns for a page. */
  function Page<T>(records: seq<T>, size: nat, page: int): seq<T>
    requires page >= 1
  {
    var from := (page - 1) * size;
    if from >= |records| then []
    else if from + size >= |records| then records[from..]
    else records[from..from + size]
  }

  /**
   GetUsers, GetGroups, GetGroupUsers, GetProjects or GetWorkbooks against a server that holds `records` and
   uses page size `size`.
   */
  function Steady<T>(records: seq<T>, size: nat): Pager<string, T> {
    Pager(
      token => Page(records, size, ParsePageToken(token)),
      token => GetNextPageToken(ParsePageToken(token), Pagination(Itoa(size), Itoa(|records|))))
  }

  /** The token that asks for page i + 1 on a walk. */
  function PageToken(i: nat): string {
    if i == 0 then "" else Itoa(i + 1)
  }

  lemma PageTokenParses(i: nat)
    requires i < MAX_INT64
    ensures ParsePageToken(PageToken(i)) == i + 1 && (i > 0 ==> PageToken(i) != "")
  {
    ParsePrinted(i + 1, "");
  }

  /** max(1, ceil(total / size)). */
  function Requests(total: nat, size: nat): (k: nat)
    requires size >= 1
    ensures k >= 1
    ensures k == 1 || Needed(k - 1, size, total)
    ensures k * size >= total
  {
    if total == 0 then 1 else (total - 1) / size + 1
  }

  /** Request i (from 0) still has records to fetch, or is the first. */
  predicate Needed(i: nat, size: nat, total: nat) {
    i == 0 || i * size < total
  }

  lemma NeededBefore(i: nat, j: nat, size: nat, total: nat)
    requires i <= j && size >= 1 && Needed(j, size, total)
    ensures Needed(i, size, total) && (j == 0 || j < total)
  {
    MulMonotone(i, j, size);
    MulMonotone(1, size, j);
  }

  lemma MulMonotone(a: int, b: int, c: nat)
    requires a <= b
    ensures a * c <= b * c && c * a <= c * b
  {
  }

  lemma SteadyNext<T>(records: seq<T>, size: nat, i: nat)
    requires i < MAX_INT64
    ensures Steady(records, size).next(PageToken(i))
      == GetNextPageToken(i + 1, Pagination(Itoa(size), Itoa(|records|)))
  {
    PageTokenParses(i);
  }

  /** Short of the total, the returned token asks for the next page. */
  lemma SteadyMore<T>(records: seq<T>, size: nat, i: nat)
    requires 1 <= size <= MAX_INT64 && |records| <= MAX_INT64 && Needed(i + 1, size, |records|)
    ensures Steady(records, size).next(PageToken(i)) == PageToken(i + 1)
  {
    NeededBefore(i, i + 1, size, |records|);
    SteadyNext(records, size, i);
    NextBeforeTotal(i + 1, size, |records|);
  }

  lemma NextBeforeTotal(page: nat, size: nat, total: nat)
    requires 1 <= page < MAX_INT64 && 1 <= size <= MAX_INT64 && total <= MAX_INT64 && Needed(page, size, total)
    ensures GetNextPageToken(page, Pagination(Itoa(size), Itoa(total))) == Itoa(page + 1)
  {
    ProductFits(page, size, total);
    NextOfReport(page, size, total);
  }

  lemma ProductFits(page: nat, size: nat, total: nat)
    requires 1 <= page && total <= MAX_INT64 && Needed(page, size, total)
    ensures Wrap64(page * size) == page * size < total
  {
    MulMonotone(0, page, size);
  }

  /** Once the total is reached, paging stops unless the product has wrapped to a negative number. */
  lemma NextAtTotal(page: nat, size: nat, total: nat, product: nat)
    requires 1 <= page && 1 <= size <= MAX_INT64 && total <= MAX_INT64
    requires product == page * size && total <= product <= 2 * MAX_INT64
    ensures GetNextPageToken(page, Pagination(Itoa(size), Itoa(total))) == "" <==> product <= MAX_INT64
  {
    AtoiItoa(size);
    AtoiItoa(total);
    AtoiItoa(Wrap64(page + 1));
    if product <= MAX_INT64 {
      assert Wrap64(product) == product;
    } else {
      assert Wrap64(product) == product - 0x1_0000_0000_0000_0000 < 0;
    }
  }

  lemma SteadyLast<T>(records: seq<T>, size: nat, i: nat, product: nat)
    requires i < MAX_INT64 && 1 <= size <= MAX_INT64 && |records| <= MAX_INT64
    requires product == (i + 1) * size && |records| <= product <= 2 * MAX_INT64
    ensures Steady(records, size).next(PageToken(i)) == "" <==> product <= MAX_INT64
  {
    SteadyNext(records, size, i);
    NextAtTotal(i + 1, size, |records|, product);
  }

  lemma LastProduct(i: nat, size: nat, total: nat)
    requires size <= MAX_INT64 && total <= MAX_INT64 && Needed(i, size, total)
    ensures 0 <= (i + 1) * size <= 2 * MAX_INT64
    ensures size >= 1 ==> i < MAX_INT64
  {
    if size >= 1 { NeededBefore(i, i, size, total); }
    MulMonotone(0, i + 1, size);
    assert (i + 1) * size == i * size + size;
  }

  lemma SteadyTokens<T>(records: seq<T>, size: nat, i: nat)
    requires 1 <= size <= MAX_INT64 && |records| <= MAX_INT64 && Needed(i, size, |records|)
    ensures TokenAt(Steady(records, size), "", i) == PageToken(i)
  {
    var pager, name := Steady(records, size), PageToken;
    forall j: nat | j < i ensures pager.next(name(j)) == name(j + 1) {
      NeededBefore(j + 1, i, size, |records|);
      SteadyMore(records, size, j);
    }
    TokensFollow(pager, "", name, i);
  }

  function Min(a: nat, b: nat): nat {
    if a < b then a else b
  }

  /** The first n pages of the list. */
  function Slices<T>(records: seq<T>, size: nat, n: nat): seq<seq<T>> {
    seq(n, i requires 0 <= i < n => Page(records, size, i + 1))
  }

  lemma PageExtends<T>(records: seq<T>, size: nat, page: nat, before: nat)
    requires page >= 1 && before == (page - 1) * size && before <= |records|
    ensures records[..before] + Page(records, size, page) == records[..Min(before + size, |records|)]
  {
  }

  lemma {:induction false} SlicesJoin<T>(records: seq<T>, size: nat, n: nat)
    requires size >= 1 && (n == 0 || Needed(n - 1, size, |records|))
    ensures Flatten(Slices(records, size, n)) == records[..Min(n * size, |records|)]
  {
    if n > 0 {
      if n > 1 {
        NeededBefore(n - 2, n - 1, size, |records|);
      }
      var before := (n - 1) * size;
      assert n * size == before + size;
      SlicesJoin(records, size, n - 1);
      PageExtends(records, size, n, before);
      assert Slices(records, size, n) == Slices(records, size, n - 1) + [Page(records, size, n)];
      FlattenMore(Slices(records, size, n - 1), Page(records, size, n));
    }
  }

  /** The token of a needed request, and the page it brings. */
  lemma SteadyPage<T>(records: seq<T>, size: nat, i: nat)
    requires 1 <= size <= MAX_INT64 && |records| <= MAX_INT64 && Needed(i, size, |records|)
    ensures var token := TokenAt(Steady(records, size), "", i);
      && ParsePageToken(token) == i + 1 && (i > 0 ==> token != "")
      && Steady(records, size).page(token) == Page(records, size, i + 1)
  {
    SteadyTokens(records, size, i);
    NeededBefore(i, i, size, |records|);
    PageTokenParses(i);
  }

  /** Up to the last needed request, tokens count pages and the received pages are the slices of the list. */
  lemma SteadyWalk<T>(records: seq<T>, size: nat, k: nat)
    requires 1 <= size <= MAX_INT64 && |records| <= MAX_INT64 && k >= 1 && Needed(k - 1, size, |records|)
    ensures forall i :: 0 <= i < k ==> ParsePageToken(TokenAt(Steady(records, size), "", i)) == i + 1
    ensures forall i :: 0 < i < k ==> TokenAt(Steady(records, size), "", i) != ""
    ensures Pages(Steady(records, size), "", k) == Slices(records, size, k)
  {
    var pager := Steady(records, size);
    forall i | 0 <= i < k
      ensures ParsePageToken(TokenAt(pager, "", i)) == i + 1 && (i > 0 ==> TokenAt(pager, "", i) != "")
      ensures pager.page(TokenAt(pager, "", i)) == Page(records, size, i + 1)
    {
      NeededBefore(i, k - 1, size, |records|);
      SteadyPage(records, size, i);
    }
    var pages, slices := Pages(pager, "", k), Slices(records, size, k);
    assert forall i :: 0 <= i < k ==> pages[i] == slices[i];
  }

  /**
   Following tokens from "" returns the records in order, each once, whatever page size s the server
   uses; it takes max(1, ceil(N/s)) requests exactly when the last product currentPage*pageSize fits
   in 64 bits (otherwise the product wraps and the client asks on).
   */
  lemma WalkIsExact<T(!new)>(records: seq<T>, size: nat)
    requires 1 <= size <= MAX_INT64 && |records| <= MAX_INT64
    ensures var k := Requests(|records|, size);
      && Flatten(Pages(Steady(records, size), "", k)) == records
      && (Delivers(Steady(records, size), "", records, k) <==> k * size <= MAX_INT64)
  {
    var k := Requests(|records|, size);
    SteadyWalk(records, size, k);
    SlicesJoin(records, size, k);
    SteadyTokens(records, size, k - 1);
    LastProduct(k - 1, size, |records|);
    SteadyLast(records, size, k - 1, k * size);
    assert TokenAt(Steady(records, size), "", k)
      == Steady(records, size).next(TokenAt(Steady(records, size), "", k - 1));
  }

  /**
   No product computed on the walk exceeds N + s, so a total and page size whose sum fits in 64 bits cannot
   wrap.
   */
  lemma ProductsBounded<T(!new)>(records: seq<T>, size: nat)
    requires 1 <= size <= MAX_INT64 && |records| <= MAX_INT64
    ensures forall i :: 0 <= i < Requests(|records|, size) ==>
      ParsePageToken(TokenAt(Steady(records, size), "", i)) * size <= |records| + size
    ensures |records| + size <= MAX_INT64 ==> Delivers(Steady(records, size), "", records, Requests(|records|, size))
  {
    var k := Requests(|records|, size);
    SteadyWalk(records, size, k);
    forall i | 0 <= i < k ensures ParsePageToken(TokenAt(Steady(records, size), "", i)) * size <= |records| + size {
      NeededBefore(i, k - 1, size, |records|);
      assert (i + 1) * size == i * size + size;
    }
    assert k * size == (k - 1) * size + size;
    WalkIsExact(records, size);
  }

  // ------------------------------------------------------------ a changing server

  /** What one response reports. */
  datatype Counts = Counts(size: nat, total: nat)

  predicate IsReadable(reply: Counts) {
    1 <= reply.size <= MAX_INT64 && reply.total <= MAX_INT64
  }

  /** The product a request for `page` is answered with, before it is cut to 64 bits. */
  function Product(reply: Counts, page: nat): nat {
    MulMonotone(0, page, reply.size);
    page * reply.size
  }

  /** The guard at which paging stops: the 64-bit product of the requested page and the size reaches the total. */
  predicate EndsAt(reply: Counts, page: nat) {
    Wrap64(Product(reply, page)) >= reply.total
  }

  /** The token a response leads to. */
  function NextAfter(reply: Counts): string -> string {
    token => GetNextPageToken(ParsePageToken(token), Pagination(Itoa(reply.size), Itoa(reply.total)))
  }

  function NextsOf(replies: seq<Counts>): (nexts: seq<string -> string>)
    ensures |nexts| == |replies|
  {
    seq(|replies|, i requires 0 <= i < |replies| => NextAfter(replies[i]))
  }

  /** The token of the n-th request (from 0) when every response may lead to its next token in another way. */
  function ChangingTokenAt(nexts: seq<string -> string>, n: nat): string
    requires n <= |nexts|
  {
    if n == 0 then "" else nexts[n - 1](ChangingTokenAt(nexts, n - 1))
  }

  /** The walk is over within n requests: one of their responses led to the empty token. */
  ghost predicate StoppedBy(nexts: seq<string -> string>, n: nat)
    requires n <= |nexts|
  {
    exists i :: 1 <= i <= n && ChangingTokenAt(nexts, i) == ""
  }

  lemma NextOfChanging(reply: Counts, n: nat)
    requires n + 1 < MAX_INT64 && IsReadable(reply)
    ensures NextAfter(reply)(PageToken(n)) == if EndsAt(reply, n + 1) then "" else PageToken(n + 1)
  {
    PageTokenParses(n);
    NextOfReport(n + 1, reply.size, reply.total);
  }

  /** Request j, made under its name, either ends the walk or leads to the next name. */
  ghost predicate Follows(nexts: seq<string -> string>, name: nat -> string, ends: seq<bool>, j: nat)
    requires j < |nexts| == |ends|
  {
    name(j + 1) != "" && nexts[j](name(j)) == if ends[j] then "" else name(j + 1)
  }

  lemma FollowsOnce(nexts: seq<string -> string>, name: nat -> string, ends: seq<bool>, n: nat)
    requires n < |nexts| == |ends| && Follows(nexts, name, ends, n) && !StoppedBy(nexts, n)
    requires ChangingTokenAt(nexts, n) == name(n)
    ensures StoppedBy(nexts, n + 1) <==> ends[n]
    ensures !ends[n] ==> ChangingTokenAt(nexts, n + 1) == name(n + 1)
  {
    assert ChangingTokenAt(nexts, n + 1) == nexts[n](name(n));
  }

  lemma {:induction false} ChangingTokensFollow(nexts: seq<string -> string>, name: nat -> string,
                                                ends: seq<bool>, n: nat)
    requires n <= |nexts| == |ends| && name(0) == "" && forall j: nat :: j < n ==> Follows(nexts, name, ends, j)
    ensures StoppedBy(nexts, n) <==> exists j :: 0 <= j < n && ends[j]
    ensures !StoppedBy(nexts, n) ==> ChangingTokenAt(nexts, n) == name(n)
  {
    if n > 0 {
      ChangingTokensFollow(nexts, name, ends, n - 1);
      if StoppedBy(nexts, n - 1) {
        StaysStopped(nexts, n - 1);
      } else {
        FollowsOnce(nexts, name, ends, n - 1);
      }
    }
  }

  lemma StaysStopped(nexts: seq<string -> string>, n: nat)
    requires n < |nexts| && StoppedBy(nexts, n)
    ensures StoppedBy(nexts, n + 1)
  {
    var i :| 1 <= i <= n && ChangingTokenAt(nexts, i) == "";
  }

  /** Response i, if it is asked for, ends the walk. */
  predicate Stops(replies: seq<Counts>, i: nat)
    requires i < |replies|
  {
    EndsAt(replies[i], i + 1)
  }

  function Ends(replies: seq<Counts>): (ends: seq<bool>)
    ensures |ends| == |replies|
    ensures forall i :: 0 <= i < |ends| ==> ends[i] == Stops(replies, i)
  {
    seq(|replies|, i requires 0 <= i < |replies| => Stops(replies, i))
  }

  lemma RepliesFollow(replies: seq<Counts>, n: nat)
    requires n < |replies| && n + 1 < MAX_INT64 && IsReadable(replies[n])
    ensures Follows(NextsOf(replies), PageToken, Ends(replies), n)
  {
    NextOfChanging(replies[n], n);
    PageTokenParses(n + 1);
  }

  /**
   The exact condition, whatever sizes and totals the responses report: paging stops within n requests
   if and only if some response i has (wrapped) product (i + 1) * size at least its total; and as long as
   none has, request i asks for page i + 1.
   */
  lemma ChangingWalkIsExact(replies: seq<Counts>, n: nat)
    requires n <= |replies| && n < MAX_INT64 && forall i :: 0 <= i < n ==> IsReadable(replies[i])
    ensures StoppedBy(NextsOf(replies), n) <==> exists i :: 0 <= i < n && Stops(replies, i)
    ensures !StoppedBy(NextsOf(replies), n) ==> ChangingTokenAt(NextsOf(replies), n) == PageToken(n)
  {
    forall j: nat | j < n ensures Follows(NextsOf(replies), PageToken, Ends(replies), j) {
      RepliesFollow(replies, j);
    }
    ChangingTokensFollow(NextsOf(replies), PageToken, Ends(replies), n);
    assert forall i :: 0 <= i < n ==> Ends(replies)[i] == Stops(replies, i);
  }

  lemma EndsWithin(reply: Counts, page: nat)
    requires 1 <= page && 1 <= reply.size && reply.total <= page && Product(reply, page) <= MAX_INT64
    ensures EndsAt(reply, page)
  {
    MulMonotone(1, reply.size, page);
  }

  function Max(a: nat, b: nat): nat {
    if a < b then b else a
  }

  /**
   With totals of at most M the walk is over within max(1, M) requests, unless it gets to the last of
   them and that response's product does not fit in 64 bits.
   */
  lemma ChangingWalkStops(replies: seq<Counts>, bound: nat)
    requires bound < MAX_INT64 && |replies| == Max(1, bound)
    requires forall i :: 0 <= i < |replies| ==> IsReadable(replies[i]) && replies[i].total <= bound
    requires || StoppedBy(NextsOf(replies), |replies| - 1)
             || Product(replies[|replies| - 1], |replies|) <= MAX_INT64
    ensures StoppedBy(NextsOf(replies), |replies|)
  {
    var n, nexts := |replies|, NextsOf(replies);
    if StoppedBy(nexts, n - 1) {
      StaysStopped(nexts, n - 1);
    } else {
      EndsWithin(replies[n - 1], n);
      assert Stops(replies, n - 1);
      ChangingWalkIsExact(replies, n);
    }
  }

  lemma ProductWithin(reply: Counts, bound: nat, page: nat)
    requires reply.size >= 1 && 1 <= page <= Requests(bound, reply.size)
    ensures Product(reply, page) <= bound + reply.size
    ensures page == Requests(bound, reply.size) ==> bound <= Product(reply, page)
    ensures page == 1 || page <= bound
  {
    var k, size := Requests(bound, reply.size), reply.size;
    NeededBefore(page - 1, k - 1, size, bound);
    assert page * size == (page - 1) * size + size;
  }

  /**
   With a fixed page size s, totals of at most M that may change, and M + s within 64 bits: no product
   the walk computes exceeds M + s, so none wraps, and the walk is over within max(1, ceil(M/s)) requests.
   */
  lemma FixedSizeWalkStops(replies: seq<Counts>, size: nat, bound: nat)
    requires 1 <= size && bound + size <= MAX_INT64 && |replies| == Requests(bound, size)
    requires forall i :: 0 <= i < |replies| ==> replies[i].size == size && replies[i].total <= bound
    ensures forall i :: 0 <= i < |replies| ==> Product(replies[i], i + 1) <= bound + size
    ensures StoppedBy(NextsOf(replies), |replies|)
  {
    var k := |replies|;
    forall i | 0 <= i < k ensures Product(replies[i], i + 1) <= bound + size {
      ProductWithin(replies[i], bound, i + 1);
    }
    ProductWithin(replies[k - 1], bound, k);
    assert Stops(replies, k - 1);
    ChangingWalkIsExact(replies, k);
  }

  lemma WrappedProductsGoOn(replies: seq<Counts>)
    requires replies == [Counts(1, 2), Counts(0x4000_0000_0000_0000, 2)]
    ensures forall i :: 0 <= i < |replies| ==> !Stops(replies, i)
  {
    assert Product(replies[0], 1) == 1;
    assert Product(replies[1], 2) == 0x8000_0000_0000_0000;
    assert Wrap64(0x8000_0000_0000_0000) == MIN_INT64;
  }

  /** When a product does leave 64 bits the bound is lost: two records in all, and yet a third request. */
  lemma WrappedProductOutrunsTotal(replies: seq<Counts>)
    requires replies == [Counts(1, 2), Counts(0x4000_0000_0000_0000, 2)]
    ensures var third := ChangingTokenAt(NextsOf(replies), |replies|);
      !StoppedBy(NextsOf(replies), |replies|) && third == PageToken(|replies|) != ""
  {
    WrappedProductsGoOn(replies);
    ChangingWalkIsExact(replies, |replies|);
    PageTokenParses(|replies|);
  }
}
