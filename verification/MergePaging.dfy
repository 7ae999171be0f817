/**
 * The combined listing of inbox and junk (listAll in pkg/service/message_service.go): each folder is
 * fetched only as far as the page reaches, yet the page is a slice of the sorted whole.
 */
module MergePaging {
  import opened Common

  datatype Message = Message(id: string, receivedAt: int)

  ghost predicate NewestFirst(s: seq<Message>) {
    forall i, j :: 0 <= i < j < |s| ==> s[i].receivedAt >= s[j].receivedAt
  }

  /** The messages of one instant, in order. */
  function At(s: seq<Message>, t: int): seq<Message> {
    if s == [] then []
    else if s[0].receivedAt == t then [s[0]] + At(s[1..], t)
    else At(s[1..], t)
  }

  // ---------- stable sorting ----------

  /** `m` came before everything in `s`: it goes in front of its equals. */
  function Insert(m: Message, s: seq<Message>): (r: seq<Message>)
    ensures |r| == |s| + 1
  {
    if s == [] || s[0].receivedAt <= m.receivedAt then [m] + s else [s[0]] + Insert(m, s[1..])
  }

  /** Newest first, equal times in their original order. */
  function Sort(s: seq<Message>): (r: seq<Message>)
    ensures |r| == |s|
  {
    if s == [] then [] else Insert(s[0], Sort(s[1..]))
  }

  lemma {:induction false} InsertShape(m: Message, s: seq<Message>, bound: int)
    requires NewestFirst(s)
    ensures NewestFirst(Insert(m, s))
    ensures m.receivedAt <= bound && (forall i :: 0 <= i < |s| ==> s[i].receivedAt <= bound) ==>
              forall i :: 0 <= i < |Insert(m, s)| ==> Insert(m, s)[i].receivedAt <= bound
  {
    if s == [] || s[0].receivedAt <= m.receivedAt {
    } else {
      InsertShape(m, s[1..], bound);
      InsertShape(m, s[1..], s[0].receivedAt);
    }
  }

  lemma {:induction false} InsertAt(m: Message, s: seq<Message>, t: int)
    requires NewestFirst(s)
    ensures At(Insert(m, s), t) == At([m] + s, t)
  {
    assert ([m] + s)[1..] == s;
    if s == [] || s[0].receivedAt <= m.receivedAt {
    } else {
      InsertAt(m, s[1..], t);
      assert ([m] + s[1..])[1..] == s[1..];
      var r := Insert(m, s);
      assert r[1..] == Insert(m, s[1..]);
    }
  }

  /** Sorting is stable: newest first, and the messages of each instant stay as they were. */
  lemma {:induction false} SortIsStable(s: seq<Message>, t: int)
    ensures NewestFirst(Sort(s)) && At(Sort(s), t) == At(s, t)
  {
    if s == [] {
    } else {
      SortIsStable(s[1..], t);
      InsertShape(s[0], Sort(s[1..]), 0);
      InsertAt(s[0], Sort(s[1..]), t);
      assert ([s[0]] + Sort(s[1..]))[1..] == Sort(s[1..]);
    }
  }

  lemma {:induction false} NoneAt(s: seq<Message>, t: int)
    requires forall i :: 0 <= i < |s| ==> s[i].receivedAt != t
    ensures At(s, t) == []
  {
    if s == [] {
    } else {
      NoneAt(s[1..], t);
    }
  }

  lemma {:induction false} SomeAt(s: seq<Message>, i: nat)
    requires i < |s|
    ensures At(s, s[i].receivedAt) != []
  {
    if i > 0 {
      SomeAt(s[1..], i - 1);
    }
  }

  /** The heads of two sorted lists that agree at every instant are the same. */
  lemma SameHead(a: seq<Message>, b: seq<Message>)
    requires NewestFirst(a) && NewestFirst(b) && a != [] && b != []
    requires forall t :: At(a, t) == At(b, t)
    ensures a[0] == b[0]
  {
    var t, u := a[0].receivedAt, b[0].receivedAt;
    SomeAt(a, 0);
    SomeAt(b, 0);
    if t > u {
      NoneAt(b, t);
    } else if u > t {
      NoneAt(a, u);
    } else {
      assert At(a, t)[0] == a[0] && At(b, t)[0] == b[0];
    }
  }

  /** Being newest first and the same at every instant determines the list: this is what `Sort` means. */
  lemma {:induction false} StableOrderIsUnique(a: seq<Message>, b: seq<Message>)
    requires NewestFirst(a) && NewestFirst(b)
    requires forall t :: At(a, t) == At(b, t)
    ensures a == b
  {
    if a == [] || b == [] {
      if a != [] {
        SomeAt(a, 0);
      } else if b != [] {
        SomeAt(b, 0);
      }
    } else {
      SameHead(a, b);
      forall t ensures At(a[1..], t) == At(b[1..], t) {
        assert At(a, t) == At(b, t);
        assert a[0].receivedAt == t ==> At(a, t)[1..] == At(a[1..], t) && At(b, t)[1..] == At(b[1..], t);
      }
      StableOrderIsUnique(a[1..], b[1..]);
    }
  }

  // ---------- merging ----------

  /** Two sorted lists merged, the first one's messages in front of their equals. */
  function Merge(a: seq<Message>, b: seq<Message>): (r: seq<Message>)
    ensures |r| == |a| + |b|
    decreases |a| + |b|
  {
    if a == [] then b
    else if b == [] then a
    else if a[0].receivedAt >= b[0].receivedAt then [a[0]] + Merge(a[1..], b)
    else [b[0]] + Merge(a, b[1..])
  }

  lemma {:induction false} MergeBounded(a: seq<Message>, b: seq<Message>, bound: int)
    requires forall i :: 0 <= i < |a| ==> a[i].receivedAt <= bound
    requires forall i :: 0 <= i < |b| ==> b[i].receivedAt <= bound
    ensures forall i :: 0 <= i < |Merge(a, b)| ==> Merge(a, b)[i].receivedAt <= bound
    decreases |a| + |b|
  {
    if a == [] || b == [] {
    } else if a[0].receivedAt >= b[0].receivedAt {
      MergeBounded(a[1..], b, bound);
    } else {
      MergeBounded(a, b[1..], bound);
    }
  }

  lemma {:induction false} MergeSorted(a: seq<Message>, b: seq<Message>)
    requires NewestFirst(a) && NewestFirst(b)
    ensures NewestFirst(Merge(a, b))
    decreases |a| + |b|
  {
    if a == [] || b == [] {
    } else if a[0].receivedAt >= b[0].receivedAt {
      MergeSorted(a[1..], b);
      MergeBounded(a[1..], b, a[0].receivedAt);
    } else {
      MergeSorted(a, b[1..]);
      MergeBounded(a, b[1..], b[0].receivedAt);
    }
  }

  lemma {:induction false} AtConcat(a: seq<Message>, b: seq<Message>, t: int)
    ensures At(a + b, t) == At(a, t) + At(b, t)
  {
    if a == [] {
      assert a + b == b;
    } else {
      assert (a + b)[1..] == a[1..] + b;
      AtConcat(a[1..], b, t);
    }
  }

  lemma {:induction false} MergeAt(a: seq<Message>, b: seq<Message>, t: int)
    requires NewestFirst(a) && NewestFirst(b)
    ensures At(Merge(a, b), t) == At(a, t) + At(b, t)
    decreases |a| + |b|
  {
    var r := Merge(a, b);
    if a == [] || b == [] {
    } else if a[0].receivedAt >= b[0].receivedAt {
      MergeAt(a[1..], b, t);
      assert r[1..] == Merge(a[1..], b);
    } else {
      MergeAt(a, b[1..], t);
      assert r[1..] == Merge(a, b[1..]);
      if b[0].receivedAt == t {
        NoneAt(a, t);
      }
    }
  }

  /** Sorting two sorted lists one after the other is merging them. */
  lemma SortIsMerge(a: seq<Message>, b: seq<Message>)
    requires NewestFirst(a) && NewestFirst(b)
    ensures Sort(a + b) == Merge(a, b)
  {
    SortIsStable(a + b, 0);
    MergeSorted(a, b);
    forall t ensures At(Sort(a + b), t) == At(Merge(a, b), t) {
      SortIsStable(a + b, t);
      AtConcat(a, b, t);
      MergeAt(a, b, t);
    }
    StableOrderIsUnique(Sort(a + b), Merge(a, b));
  }

  // ---------- pages ----------

  function Take(s: seq<Message>, n: nat): seq<Message> {
    if n < |s| then s[..n] else s
  }

  function Drop(s: seq<Message>, n: nat): seq<Message> {
    if n < |s| then s[n..] else []
  }

  function Slice(s: seq<Message>, skip: nat, top: nat): seq<Message> {
    Take(Drop(s, skip), top)
  }

  /** The first k of a merge need no more than the first k of each side. */
  lemma {:induction false} MergePrefix(a: seq<Message>, b: seq<Message>, i: nat, j: nat, k: nat)
    requires k <= i && k <= j
    ensures Take(Merge(Take(a, i), Take(b, j)), k) == Take(Merge(a, b), k)
    decreases |a| + |b|
  {
    var x, y := Take(a, i), Take(b, j);
    if a == [] || b == [] || k == 0 {
    } else if a[0].receivedAt >= b[0].receivedAt {
      MergePrefix(a[1..], b, i - 1, j, k - 1);
      assert x[1..] == Take(a[1..], i - 1);
      TakeOne(a[0], Merge(x[1..], y), k);
      TakeOne(a[0], Merge(a[1..], b), k);
    } else {
      MergePrefix(a, b[1..], i, j - 1, k - 1);
      assert y[1..] == Take(b[1..], j - 1);
      TakeOne(b[0], Merge(x, y[1..]), k);
      TakeOne(b[0], Merge(a, b[1..]), k);
    }
  }

  lemma TakeOne(m: Message, s: seq<Message>, k: nat)
    requires k > 0
    ensures Take([m] + s, k) == [m] + Take(s, k - 1)
  {
  }

  lemma SliceOfTake(s: seq<Message>, skip: nat, top: nat)
    ensures Slice(Take(s, skip + top), skip, top) == Slice(s, skip, top)
  {
  }

  lemma SameTakesSameSlice(s: seq<Message>, t: seq<Message>, skip: nat, top: nat)
    requires Take(s, skip + top) == Take(t, skip + top)
    ensures Slice(s, skip, top) == Slice(t, skip, top)
  {
    SliceOfTake(s, skip, top);
    SliceOfTake(t, skip, top);
  }

  lemma TakeKeepsOrder(s: seq<Message>, n: nat)
    requires NewestFirst(s)
    ensures NewestFirst(Take(s, n))
  {
  }

  /** The k newest of both folders are found among the k newest of each. */
  lemma NewestOfBoth(inbox: seq<Message>, junk: seq<Message>, k: nat)
    requires NewestFirst(inbox) && NewestFirst(junk)
    ensures Take(Sort(Take(inbox, k) + Take(junk, k)), k) == Take(Sort(inbox + junk), k)
  {
    TakeKeepsOrder(inbox, k);
    TakeKeepsOrder(junk, k);
    SortIsMerge(Take(inbox, k), Take(junk, k));
    SortIsMerge(inbox, junk);
    MergePrefix(inbox, junk, k, k, k);
  }

  /** The page as it is computed: skip + top messages from each folder, sorted and cut. */
  function Page(inbox: seq<Message>, junk: seq<Message>, skip: nat, top: nat): seq<Message> {
    Slice(Sort(Take(inbox, skip + top) + Take(junk, skip + top)), skip, top)
  }

  /** Fetching skip + top from each folder is enough: the page is that slice of everything, sorted. */
  lemma PageOfWhole(inbox: seq<Message>, junk: seq<Message>, skip: nat, top: nat)
    requires NewestFirst(inbox) && NewestFirst(junk)
    ensures Page(inbox, junk, skip, top) == Slice(Sort(inbox + junk), skip, top)
  {
    NewestOfBoth(inbox, junk, skip + top);
    SameTakesSameSlice(Sort(Take(inbox, skip + top) + Take(junk, skip + top)), Sort(inbox + junk), skip, top);
  }

  /** Where page n starts, counting pages of one size from zero. */
  function PageStart(n: nat, top: nat): nat {
    if n == 0 then 0 else PageStart(n - 1, top) + top
  }

  lemma {:induction false} PageStartIsProduct(n: nat, top: nat)
    ensures PageStart(n, top) == n * top
  {
    if n == 0 {
    } else {
      PageStartIsProduct(n - 1, top);
      assert (n - 1) * top + top == n * top;
    }
  }

  function Flatten(pages: seq<seq<Message>>): seq<Message> {
    if pages == [] then [] else Flatten(pages[..|pages| - 1]) + pages[|pages| - 1]
  }

  lemma TakeThenSlice(s: seq<Message>, skip: nat, top: nat)
    ensures Take(s, skip) + Slice(s, skip, top) == Take(s, skip + top)
  {
  }

  lemma TakeNone(s: seq<Message>)
    ensures Take(s, 0) == []
  {
  }

  lemma {:induction false} SlicesTile(whole: seq<Message>, top: nat, pages: seq<seq<Message>>)
    requires forall n :: 0 <= n < |pages| ==> pages[n] == Slice(whole, PageStart(n, top), top)
    ensures Flatten(pages) == Take(whole, PageStart(|pages|, top))
  {
    if pages == [] {
      TakeNone(whole);
    } else {
      var n := |pages| - 1;
      var before := pages[..n];
      assert forall i :: 0 <= i < n ==> before[i] == pages[i];
      SlicesTile(whole, top, before);
      TakeThenSlice(whole, PageStart(n, top), top);
      assert PageStart(n + 1, top) == PageStart(n, top) + top;
    }
  }

  /** Consecutive pages of one size tile the sorted whole: no gap, no repetition. */
  lemma PagesTile(inbox: seq<Message>, junk: seq<Message>, top: nat, pages: seq<seq<Message>>)
    requires NewestFirst(inbox) && NewestFirst(junk)
    requires forall n :: 0 <= n < |pages| ==> n * top >= 0 && pages[n] == Page(inbox, junk, n * top, top)
    ensures |pages| * top >= 0 && Flatten(pages) == Take(Sort(inbox + junk), |pages| * top)
  {
    forall n | 0 <= n < |pages| ensures pages[n] == Slice(Sort(inbox + junk), PageStart(n, top), top) {
      PageStartIsProduct(n, top);
      PageOfWhole(inbox, junk, PageStart(n, top), top);
    }
    SlicesTile(Sort(inbox + junk), top, pages);
    PageStartIsProduct(|pages|, top);
  }

  // ---------- the listing ----------

  /** A folder as the provider answers for it: its messages, or an error. */
  type Folder = Result<seq<Message>, string>

  function Messages(f: Folder): seq<Message> {
    if f.Ok? then f.value else []
  }

  function Fetch(f: Folder, top: nat): Folder {
    match f
    case Ok(s) => Ok(Take(s, top))
    case Err(e) => Err(e)
  }

  function FirstError(inbox: Folder, junk: Folder): Option<string> {
    if inbox.Err? then Some(inbox.error) else if junk.Err? then Some(junk.error) else None
  }

  /**
   * A folder that cannot be fetched counts as empty; the request fails, with the first error, only when
   * nothing at all was fetched and something failed. `recorded` is what goes into the account's health.
   */
  method ListAll(inbox: Folder, junk: Folder, skip: nat, top: nat)
    returns (page: Result<seq<Message>, string>, recorded: Option<string>)
    requires top > 0
    ensures page.Err? <==> Messages(inbox) == [] && Messages(junk) == [] && FirstError(inbox, junk).Some?
    ensures page.Err? ==> recorded == Some(page.error) == FirstError(inbox, junk)
    ensures page.Ok? ==> recorded == None && page.value == Page(Messages(inbox), Messages(junk), skip, top)
    ensures page.Ok? && NewestFirst(Messages(inbox)) && NewestFirst(Messages(junk)) ==>
              page.value == Slice(Sort(Messages(inbox) + Messages(junk)), skip, top)
  {
    var merged: seq<Message> := [];
    var firstErr: Option<string> := None;
    var folders := [inbox, junk];
    for i := 0 to 2
      invariant i == 0 ==> merged == [] && firstErr == None
      invariant i == 1 ==> merged == Take(Messages(inbox), skip + top) && firstErr == FirstError(inbox, Ok([]))
      invariant i == 2 ==> merged == Take(Messages(inbox), skip + top) + Take(Messages(junk), skip + top)
      invariant i == 2 ==> firstErr == FirstError(inbox, junk)
    {
      var part := Fetch(folders[i], skip + top);
      if part.Err? {
        if firstErr == None {
          firstErr := Some(part.error);
        }
        continue;
      }
      merged := merged + part.value;
    }
    if |merged| == 0 && firstErr.Some? {
      return Err(firstErr.value), firstErr;
    }
    merged := Sort(merged);
    ghost var sorted := merged;
    if skip < |merged| {
      merged := merged[skip..];
    } else {
      merged := [];
    }
    if |merged| > top {
      merged := merged[..top];
    }
    assert merged == Slice(sorted, skip, top);
    if NewestFirst(Messages(inbox)) && NewestFirst(Messages(junk)) {
      PageOfWhole(Messages(inbox), Messages(junk), skip, top);
    }
    return Ok(merged), None;
  }
}
