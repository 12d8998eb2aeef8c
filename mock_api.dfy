/** The marketplace's mock API module: keyword search and lookup over the
    market and community lists, and the wishlist kept in memory and written
    through to browser storage. */
module MockApi {
  import opened Common

  /** A listing: a market keyed by its slug, or a community keyed by its id. */
  datatype Item<K> = Item(key: K, title: string)

  type Market = Item<string>
  /** Community ids are strings: the one caller passes the route parameter
      `communityId`, which the router gives as a string. */
  type Community = Item<string>

  /** `xs` is `ys` with some elements left out, the rest in their order. */
  predicate IsSubsequence<T(==)>(xs: seq<T>, ys: seq<T>)
    decreases |ys|
  {
    if xs == [] then true
    else if ys == [] then false
    else if xs[0] == ys[0] then IsSubsequence(xs[1..], ys[1..])
    else IsSubsequence(xs, ys[1..])
  }

  lemma {:induction false} SubsequenceOfTail<T>(xs: seq<T>, y: T, ys: seq<T>)
    requires IsSubsequence(xs, ys)
    ensures IsSubsequence(xs, [y] + ys)
    decreases |ys|, 1
  {
    assert ([y] + ys)[1..] == ys;
    if xs != [] && xs[0] == y && ys != [] {
      if xs[0] == ys[0] {
        SubsequenceOfTail(xs[1..], ys[0], ys[1..]);
        assert [ys[0]] + ys[1..] == ys;
      } else {
        SubsequenceDropHead(xs, ys);
        SubsequenceOfTail(xs[1..], ys[0], ys[1..]);
        assert [ys[0]] + ys[1..] == ys;
      }
    }
  }

  lemma {:induction false} SubsequenceDropHead<T>(xs: seq<T>, ys: seq<T>)
    requires xs != [] && ys != [] && xs[0] != ys[0] && IsSubsequence(xs, ys)
    ensures IsSubsequence(xs[1..], ys[1..])
    decreases |ys|, 0
  {
    var t := ys[1..];
    assert IsSubsequence(xs, t);
    assert t != [];
    if xs[0] == t[0] {
      assert IsSubsequence(xs[1..], t[1..]);
      SubsequenceOfTail(xs[1..], t[0], t[1..]);
      assert [t[0]] + t[1..] == t;
    } else {
      SubsequenceDropHead(xs, t);
      SubsequenceOfTail(xs[1..], t[0], t[1..]);
      assert [t[0]] + t[1..] == t;
    }
  }

  /** `items.filter(keep)` */
  function Filter<T(!new)>(items: seq<T>, keep: T -> bool): (r: seq<T>)
    ensures forall x :: x in r <==> x in items && keep(x)
    ensures forall x :: multiset(r)[x] == if keep(x) then multiset(items)[x] else 0
    ensures IsSubsequence(r, items)
    decreases |items|
  {
    if items == [] then []
    else
      var rest := Filter(items[1..], keep);
      assert items == [items[0]] + items[1..];
      if keep(items[0]) then
        assert ([items[0]] + rest)[1..] == rest;
        [items[0]] + rest
      else
        SubsequenceOfTail(rest, items[0], items[1..]);
        rest
  }

  /** `title.toLowerCase().includes(keyword.toLowerCase())` */
  predicate MatchesKeyword<K>(item: Item<K>, keyword: string)
    ensures MatchesKeyword(item, keyword) ==> |keyword| <= |item.title|
    ensures keyword == [] ==> MatchesKeyword(item, keyword)
  {
    assert OccursAt(Lower(item.title), Lower([]), 0);
    Includes(Lower(item.title), Lower(keyword))
  }

  /** `filterByKeyword(items, keyword)`: exactly the items whose title
      contains the keyword, ignoring case, in their original order. */
  function FilterByKeyword<K(!new)>(items: seq<Item<K>>, keyword: string): (r: seq<Item<K>>)
    ensures forall x :: x in r <==> x in items && MatchesKeyword(x, keyword)
    ensures forall x :: multiset(r)[x] == if MatchesKeyword(x, keyword) then multiset(items)[x] else 0
    ensures IsSubsequence(r, items)
  {
    Filter(items, (x: Item<K>) => MatchesKeyword(x, keyword))
  }

  /** Every title contains the empty keyword, so filtering by it keeps the
      whole list. */
  lemma {:induction false} EmptyKeywordKeepsAll<K(!new)>(items: seq<Item<K>>)
    ensures FilterByKeyword(items, "") == items
    decreases |items|
  {
    if items != [] {
      assert OccursAt(Lower(items[0].title), Lower(""), 0);
      EmptyKeywordKeepsAll(items[1..]);
      assert items == [items[0]] + items[1..];
    }
  }

  /** `!keyword`: the keyword is missing or empty. */
  predicate Falsy(keyword: Option<string>) {
    keyword.None? || keyword.value == ""
  }

  /** `items.find(item => item.key === key)`: the first item with that key. */
  function Find<K(==)>(items: seq<Item<K>>, key: K): (r: Option<Item<K>>)
    ensures r.None? <==> forall i :: 0 <= i < |items| ==> items[i].key != key
    ensures r.Some? ==> exists i :: 0 <= i < |items| && items[i] == r.value && r.value.key == key &&
                                    forall j :: 0 <= j < i ==> items[j].key != key
    decreases |items|
  {
    if items == [] then None
    else if items[0].key == key then Some(items[0])
    else
      var r := Find(items[1..], key);
      FindPastHead(items, key, r);
      r
  }

  /** A first match in the tail, past a head that does not match, is a
      first match in the whole list. */
  lemma FindPastHead<K>(items: seq<Item<K>>, key: K, r: Option<Item<K>>)
    requires items != [] && items[0].key != key
    requires r.None? <==> forall i :: 0 <= i < |items[1..]| ==> items[1..][i].key != key
    requires r.Some? ==> exists i :: 0 <= i < |items[1..]| && items[1..][i] == r.value && r.value.key == key &&
                                     forall j :: 0 <= j < i ==> items[1..][j].key != key
    ensures r.None? <==> forall i :: 0 <= i < |items| ==> items[i].key != key
    ensures r.Some? ==> exists i :: 0 <= i < |items| && items[i] == r.value && r.value.key == key &&
                                    forall j :: 0 <= j < i ==> items[j].key != key
  {
    if r.Some? {
      var i :| 0 <= i < |items[1..]| && items[1..][i] == r.value && r.value.key == key &&
               forall j :: 0 <= j < i ==> items[1..][j].key != key;
      assert items[i + 1] == r.value;
      forall j | 0 <= j < i + 1 ensures items[j].key != key {
        if j > 0 { assert items[j] == items[1..][j - 1]; }
      }
    } else {
      forall i | 0 <= i < |items| ensures items[i].key != key {
        if i > 0 { assert items[i] == items[1..][i - 1]; }
      }
    }
  }

  /** The module: the two mock lists, the in-memory wishlist and its
      stored copy under `codethat-wishlist`. */
  class Api {
    const markets: seq<Market>
    const communitys: seq<Community>
    var wishlist: set<string>
    /** The slugs last written to storage, `None` before any write. */
    ghost var stored: Option<set<string>>

    /** Module load: the wishlist is what storage holds, or empty. */
    constructor (markets: seq<Market>, communitys: seq<Community>, saved: Option<set<string>>)
      ensures this.markets == markets && this.communitys == communitys
      ensures wishlist == (if saved.Some? then saved.value else {})
      ensures stored == saved
    {
      this.markets := markets;
      this.communitys := communitys;
      wishlist := if saved.Some? then saved.value else {};
      stored := saved;
    }

    /** `getMarkets(keyword)` */
    function GetMarkets(keyword: Option<string>): (r: seq<Market>)
      ensures Falsy(keyword) ==> r == markets
      ensures !Falsy(keyword) ==> forall m :: m in r <==> m in markets && MatchesKeyword(m, keyword.value)
      ensures !Falsy(keyword) ==> forall m :: multiset(r)[m] == if MatchesKeyword(m, keyword.value) then multiset(markets)[m] else 0
      ensures IsSubsequence(r, markets)
    {
      if Falsy(keyword) then
        assert IsSubsequence(markets, markets) by { SubsequenceReflexive(markets); }
        markets
      else FilterByKeyword(markets, keyword.value)
    }

    /** `getCommunitys(keyword)` */
    function GetCommunitys(keyword: Option<string>): (r: seq<Community>)
      ensures Falsy(keyword) ==> r == communitys
      ensures !Falsy(keyword) ==> forall c :: c in r <==> c in communitys && MatchesKeyword(c, keyword.value)
      ensures !Falsy(keyword) ==> forall c :: multiset(r)[c] == if MatchesKeyword(c, keyword.value) then multiset(communitys)[c] else 0
      ensures IsSubsequence(r, communitys)
    {
      if Falsy(keyword) then
        assert IsSubsequence(communitys, communitys) by { SubsequenceReflexive(communitys); }
        communitys
      else FilterByKeyword(communitys, keyword.value)
    }

    /** `getMarketBySlug(marketSlug)` */
    function GetMarketBySlug(marketSlug: string): (r: Option<Market>)
      ensures r.None? <==> forall m :: m in markets ==> m.key != marketSlug
      ensures r.Some? ==> r.value in markets && r.value.key == marketSlug
      ensures r.Some? ==> exists i :: 0 <= i < |markets| && markets[i] == r.value &&
                                      forall j :: 0 <= j < i ==> markets[j].key != marketSlug
    {
      Find(markets, marketSlug)
    }

    /** `getCommunityById(communityId)`, compared with `===`. */
    function GetCommunityById(communityId: string): (r: Option<Community>)
      ensures r.None? <==> forall c :: c in communitys ==> c.key != communityId
      ensures r.Some? ==> r.value in communitys && r.value.key == communityId
      ensures r.Some? ==> exists i :: 0 <= i < |communitys| && communitys[i] == r.value &&
                                      forall j :: 0 <= j < i ==> communitys[j].key != communityId
    {
      Find(communitys, communityId)
    }

    /** `getWishlist()`: the markets whose slug is marked, in list order. */
    function GetWishlist(): (r: seq<Market>)
      reads this
      ensures forall m :: m in r <==> m in markets && m.key in wishlist
      ensures forall m :: multiset(r)[m] == if m.key in wishlist then multiset(markets)[m] else 0
      ensures IsSubsequence(r, markets)
    {
      var marked := wishlist;
      Filter(markets, (m: Market) => m.key in marked)
    }

    /** `addWishlist(marketSlug)` */
    method AddWishlist(marketSlug: string)
      modifies this
      ensures wishlist == old(wishlist) + {marketSlug}
      ensures old(marketSlug in wishlist) ==> wishlist == old(wishlist)
      ensures stored == Some(wishlist)
      ensures forall m :: m in markets && m.key == marketSlug ==> m in GetWishlist()
      ensures forall m :: m in old(GetWishlist()) ==> m in GetWishlist()
    {
      wishlist := wishlist + {marketSlug};
      stored := Some(wishlist);
    }

    /** `deleteWishlist(marketSlug)` */
    method DeleteWishlist(marketSlug: string)
      modifies this
      ensures wishlist == old(wishlist) - {marketSlug}
      ensures old(marketSlug !in wishlist) ==> wishlist == old(wishlist)
      ensures stored == Some(wishlist)
      ensures forall m :: m in GetWishlist() ==> m.key != marketSlug
      ensures forall m :: m in old(GetWishlist()) && m.key != marketSlug ==> m in GetWishlist()
    {
      wishlist := wishlist - {marketSlug};
      stored := Some(wishlist);
    }
  }

  lemma {:induction false} SubsequenceReflexive<T>(xs: seq<T>)
    ensures IsSubsequence(xs, xs)
    decreases |xs|
  {
    if xs != [] {
      SubsequenceReflexive(xs[1..]);
    }
  }
}
