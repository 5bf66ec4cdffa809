/** The query `loadPosts` sends: all posts sorted by `createdAt` descending,
    then `skip((page - 1) * 2)` and `limit(2)`. */
module PostQuery {
  import opened Records

  const ItemsPerPage: nat := 2

  function Min(a: int, b: int): int
  {
    if a <= b then a else b
  }

  /** `currentPage || 1`. */
  function PageNumber(currentPage: int): int
  {
    if currentPage != 0 then currentPage else 1
  }

  /** `(page - 1) * items_per_page`; negative for a negative page. */
  function Skip(currentPage: int): (skip: int)
    ensures currentPage >= 1 ==> skip == (currentPage - 1) * ItemsPerPage
    ensures currentPage == 0 ==> skip == 0
    ensures skip < 0 <==> currentPage < 0
  {
    (PageNumber(currentPage) - 1) * ItemsPerPage
  }

  /** `skip(skip).limit(2)` over an already ordered result. */
  function PageSlice<T>(all: seq<T>, skip: nat): (page: seq<T>)
    ensures |page| == if skip >= |all| then 0 else Min(ItemsPerPage, |all| - skip)
    ensures forall i :: 0 <= i < |page| ==> skip + i < |all| && page[i] == all[skip + i]
  {
    if skip >= |all| then [] else all[skip .. Min(skip + ItemsPerPage, |all|)]
  }

  /** The first `k` pages laid end to end. */
  function Pages<T>(all: seq<T>, k: nat): seq<T>
  {
    if k == 0 then [] else Pages(all, k - 1) + PageSlice(all, (k - 1) * ItemsPerPage)
  }

  /** Pages tile the ordered result: the first `k` pages are exactly its first
      `2k` elements, so every post is on exactly one page. */
  lemma {:induction false} PagesTile<T>(all: seq<T>, k: nat)
    ensures Pages(all, k) == all[..Min(k * ItemsPerPage, |all|)]
  {
    if k > 0 {
      PagesTile(all, k - 1);
      var skip := (k - 1) * ItemsPerPage;
      assert k * ItemsPerPage == skip + ItemsPerPage;
      var lo := Min(skip, |all|);
      var hi := Min(skip + ItemsPerPage, |all|);
      if skip >= |all| {
        assert lo == hi == |all|;
        assert PageSlice(all, skip) == [];
      } else {
        assert PageSlice(all, skip) == all[lo..hi];
      }
      assert all[..hi] == all[..lo] + all[lo..hi];
    }
  }

  /** With five posts, page 1 holds two and page 3 holds one; page 0 is page 1. */
  lemma FivePosts<T>(all: seq<T>)
    requires |all| == 5
    ensures |PageSlice(all, Skip(1))| == 2 && |PageSlice(all, Skip(3))| == 1
    ensures Skip(0) == Skip(1)
  {
  }

  /** Post ids in the order the query returns them: by `createdAt`, newest first. */
  predicate NewestFirstOrder(ids: seq<PostId>, posts: map<PostId, Post>)
  {
    (forall i :: 0 <= i < |ids| ==> ids[i] in posts) &&
    (forall i, j :: 0 <= i < j < |ids| ==> posts[ids[i]].createdAt >= posts[ids[j]].createdAt)
  }

  /** The keys of a table below `n`, ascending. */
  function IdsBelow(keys: set<PostId>, n: nat): (r: seq<PostId>)
    ensures forall x :: x in r <==> x in keys && x < n
    ensures forall i, j :: 0 <= i < j < |r| ==> r[i] < r[j]
  {
    if n == 0 then []
    else
      var below := IdsBelow(keys, n - 1);
      assert forall i :: 0 <= i < |below| ==> below[i] < n - 1 by {
        forall i | 0 <= i < |below| ensures below[i] < n - 1 {
          assert below[i] in below;
        }
      }
      below + (if n - 1 in keys then [n - 1] else [])
  }

  function Insert(id: PostId, sorted: seq<PostId>, posts: map<PostId, Post>): (r: seq<PostId>)
    requires id in posts && NewestFirstOrder(sorted, posts)
    ensures multiset(r) == multiset(sorted) + multiset{id}
    ensures NewestFirstOrder(r, posts)
    decreases |sorted|
  {
    if sorted == [] || posts[id].createdAt >= posts[sorted[0]].createdAt then [id] + sorted
    else
      var rest := Insert(id, sorted[1..], posts);
      InsertBehindHead(id, sorted, rest, posts);
      [sorted[0]] + rest
  }

  /** The step of `Insert` that keeps the head in front. */
  lemma InsertBehindHead(id: PostId, sorted: seq<PostId>, rest: seq<PostId>, posts: map<PostId, Post>)
    requires id in posts && sorted != [] && NewestFirstOrder(sorted, posts)
    requires posts[id].createdAt < posts[sorted[0]].createdAt
    requires multiset(rest) == multiset(sorted[1..]) + multiset{id}
    requires NewestFirstOrder(rest, posts)
    ensures multiset([sorted[0]] + rest) == multiset(sorted) + multiset{id}
    ensures NewestFirstOrder([sorted[0]] + rest, posts)
  {
    assert sorted == [sorted[0]] + sorted[1..];
    var head := sorted[0];
    forall k | 0 <= k < |rest| ensures posts[head].createdAt >= posts[rest[k]].createdAt {
      var x := rest[k];
      assert x in multiset(rest);
      if x != id {
        assert x in multiset(sorted[1..]);
        var m :| 0 <= m < |sorted[1..]| && sorted[1..][m] == x;
        assert sorted[m + 1] == x;
      }
    }
    var r := [head] + rest;
    forall i, j | 0 <= i < j < |r| ensures posts[r[i]].createdAt >= posts[r[j]].createdAt {
      assert r[j] == rest[j - 1];
      if i > 0 {
        assert r[i] == rest[i - 1];
      }
    }
  }

  /** `sort({ createdAt: -1 })` as an insertion sort. */
  function SortNewestFirst(ids: seq<PostId>, posts: map<PostId, Post>): (r: seq<PostId>)
    requires forall i :: 0 <= i < |ids| ==> ids[i] in posts
    ensures multiset(r) == multiset(ids)
    ensures NewestFirstOrder(r, posts)
    decreases |ids|
  {
    if ids == [] then []
    else
      assert ids == [ids[0]] + ids[1..];
      Insert(ids[0], SortNewestFirst(ids[1..], posts), posts)
  }

  /** Every post of the table exactly once, newest first (`bound` is any
      number above every id). */
  function NewestFirst(posts: map<PostId, Post>, bound: nat): (r: seq<PostId>)
    requires forall p :: p in posts ==> p < bound
    ensures forall x :: x in r <==> x in posts
    ensures NoDup(r)
    ensures NewestFirstOrder(r, posts)
  {
    var ids := IdsBelow(posts.Keys, bound);
    var r := SortNewestFirst(ids, posts);
    MultisetKeepsNoDup(ids, r);
    assert forall x :: x in r <==> x in multiset(ids);
    r
  }

  /** A post newer than every other one heads the result. */
  lemma NewestHeadsOrder(posts: map<PostId, Post>, bound: nat, id: PostId)
    requires forall p :: p in posts ==> p < bound
    requires id in posts
    requires forall p :: p in posts && p != id ==> posts[p].createdAt < posts[id].createdAt
    ensures NewestFirst(posts, bound) != [] && NewestFirst(posts, bound)[0] == id
  {
    var r := NewestFirst(posts, bound);
    assert id in r;
  }

  /** When no two posts share a creation moment, the newest-first listing
      of the table is unique: any duplicate-free listing of every post in
      that order is the one `NewestFirst` returns, whatever tie-break it uses. */
  lemma NewestFirstUnique(posts: map<PostId, Post>, bound: nat, ids: seq<PostId>)
    requires forall p :: p in posts ==> p < bound
    requires DistinctStamps(posts)
    requires NoDup(ids) && (forall x :: x in ids <==> x in posts) && NewestFirstOrder(ids, posts)
    ensures ids == NewestFirst(posts, bound)
  {
    OrderedListingsAgree(ids, NewestFirst(posts, bound), posts);
  }

  /** Under distinct stamps a newest-first listing is strictly ordered. */
  lemma StrictlyNewestFirst(ids: seq<PostId>, posts: map<PostId, Post>)
    requires DistinctStamps(posts) && NoDup(ids) && NewestFirstOrder(ids, posts)
    ensures forall i, j :: 0 <= i < j < |ids| ==> posts[ids[i]].createdAt > posts[ids[j]].createdAt
  {
    forall i, j | 0 <= i < j < |ids| ensures posts[ids[i]].createdAt > posts[ids[j]].createdAt {
      assert ids[i] != ids[j];
    }
  }

  lemma {:induction false} OrderedListingsAgree(a: seq<PostId>, b: seq<PostId>, posts: map<PostId, Post>)
    requires DistinctStamps(posts)
    requires NoDup(a) && NoDup(b) && (forall x :: x in a <==> x in b)
    requires NewestFirstOrder(a, posts) && NewestFirstOrder(b, posts)
    ensures a == b
    decreases |a|
  {
    if a != [] {
      assert a[0] in b;
      assert b != [];
      HeadsAgree(a, b, posts);
      NoDupTail(a);
      NoDupTail(b);
      forall x ensures x in a[1..] <==> x in b[1..] {
        assert x in a <==> x in a[1..] || x == a[0] by { assert a == [a[0]] + a[1..]; }
        assert x in b <==> x in b[1..] || x == b[0] by { assert b == [b[0]] + b[1..]; }
      }
      TailOrder(a, posts);
      TailOrder(b, posts);
      OrderedListingsAgree(a[1..], b[1..], posts);
      assert a == [a[0]] + a[1..] && b == [b[0]] + b[1..];
    } else {
      NoMembersEmpty(b);
    }
  }

  lemma NoMembersEmpty(b: seq<PostId>)
    ensures (forall x :: x !in b) ==> b == []
  {
    if b != [] {
      assert b[0] in b;
    }
  }

  lemma HeadsAgree(a: seq<PostId>, b: seq<PostId>, posts: map<PostId, Post>)
    requires DistinctStamps(posts) && a != [] && b != []
    requires a[0] in b && b[0] in a
    requires NewestFirstOrder(a, posts) && NewestFirstOrder(b, posts)
    ensures a[0] == b[0]
  {
    var i :| 0 <= i < |a| && a[i] == b[0];
    var j :| 0 <= j < |b| && b[j] == a[0];
    assert posts[a[0]].createdAt >= posts[a[i]].createdAt;
    assert posts[b[0]].createdAt >= posts[b[j]].createdAt;
  }

  lemma TailOrder(a: seq<PostId>, posts: map<PostId, Post>)
    requires a != [] && NewestFirstOrder(a, posts)
    ensures NewestFirstOrder(a[1..], posts)
  {
    var t := a[1..];
    forall i, j | 0 <= i < j < |t| ensures posts[t[i]].createdAt >= posts[t[j]].createdAt {
      assert t[i] == a[i + 1] && t[j] == a[j + 1];
    }
  }

  lemma MultisetKeepsNoDup(a: seq<PostId>, b: seq<PostId>)
    requires forall i, j :: 0 <= i < j < |a| ==> a[i] < a[j]
    requires multiset(a) == multiset(b)
    ensures NoDup(b)
  {
    forall i, j | 0 <= i < j < |b| ensures b[i] != b[j] {
      if b[i] == b[j] {
        var x := b[i];
        assert multiset(b)[x] >= 2 by {
          assert b == b[..i] + [x] + b[i + 1 .. j] + [x] + b[j + 1..];
        }
        AscendingOnce(a, x);
        assert false;
      }
    }
  }

  lemma {:induction false} AscendingOnce(a: seq<PostId>, x: PostId)
    requires forall i, j :: 0 <= i < j < |a| ==> a[i] < a[j]
    ensures multiset(a)[x] <= 1
    decreases |a|
  {
    if a != [] {
      assert a == [a[0]] + a[1..];
      AscendingOnce(a[1..], x);
      if a[0] == x {
        assert x !in a[1..];
      }
    }
  }
}
