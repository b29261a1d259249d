/**
 * The orders in which the site lists its pages: html_generate_root keeps
 * projects ascending by title and posts descending by date, inserting each
 * page before the first entry it strictly precedes; rss_generate sorts by
 * date, descending. Keys are compared with strcmp.
 */
module PageOrder {
  import opened Wrappers
  import opened Strings
  import opened Document

  datatype Order = ByTitle | ByDate

  /** The string a page is ordered by; a missing one compares as empty. */
  function Key(o: Order, p: Page): string {
    match o
    case ByTitle => p.title.GetOr("")
    case ByDate => p.date.GetOr("")
  }

  /** `a` strictly precedes `b`: strcmp(a, b) < 0 for titles, strcmp(a, b) > 0 for dates. */
  predicate Before(o: Order, a: Page, b: Page) {
    match o
    case ByTitle => StrCmp(Key(o, a), Key(o, b)) < 0
    case ByDate => StrCmp(Key(o, a), Key(o, b)) > 0
  }

  lemma {:induction false} BeforeAsymmetric(o: Order, a: Page, b: Page)
    ensures Before(o, a, b) ==> !Before(o, b, a)
  {
    StrCmpAntisymmetric(Key(o, a), Key(o, b));
  }

  lemma {:induction false} BeforeTransitive(o: Order, a: Page, b: Page, c: Page)
    requires Before(o, a, b) && Before(o, b, c)
    ensures Before(o, a, c)
  {
    match o
    case ByTitle =>
      StrCmpTransitive(Key(o, a), Key(o, b), Key(o, c));
    case ByDate =>
      StrCmpAntisymmetric(Key(o, a), Key(o, b));
      StrCmpAntisymmetric(Key(o, b), Key(o, c));
      StrCmpAntisymmetric(Key(o, a), Key(o, c));
      StrCmpTransitive(Key(o, c), Key(o, b), Key(o, a));
  }

  /** Not preceding is transitive too: strcmp orders all strings. */
  lemma {:induction false} NotBeforeTransitive(o: Order, a: Page, b: Page, c: Page)
    requires !Before(o, a, b) && !Before(o, b, c)
    ensures !Before(o, a, c)
  {
    var ka, kb, kc := Key(o, a), Key(o, b), Key(o, c);
    StrCmpZero(ka, kb);
    StrCmpZero(kb, kc);
    StrCmpAntisymmetric(ka, kb);
    StrCmpAntisymmetric(kb, kc);
    StrCmpAntisymmetric(ka, kc);
    if StrCmp(ka, kb) != 0 && StrCmp(kb, kc) != 0 {
      match o
      case ByTitle =>
        StrCmpTransitive(kc, kb, ka);
      case ByDate =>
        StrCmpTransitive(ka, kb, kc);
    }
  }

  /** Neither of two pages precedes the other exactly when their keys are equal. */
  lemma {:induction false} UnorderedIsEqualKey(o: Order, a: Page, b: Page)
    ensures !Before(o, a, b) && !Before(o, b, a) <==> Key(o, a) == Key(o, b)
  {
    StrCmpAntisymmetric(Key(o, a), Key(o, b));
    StrCmpZero(Key(o, a), Key(o, b));
  }

  /** No page precedes one in front of it. */
  predicate Sorted(o: Order, s: seq<Page>) {
    forall i, j | 0 <= i < j < |s| :: !Before(o, s[j], s[i])
  }

  /** The index the insertion loop stops at: the first entry from `from` on that `p` precedes, or the end. */
  function InsertPositionFrom(o: Order, list: seq<Page>, p: Page, from: nat): (i: nat)
    requires from <= |list|
    ensures from <= i <= |list|
    ensures forall j | from <= j < i :: !Before(o, p, list[j])
    ensures i < |list| ==> Before(o, p, list[i])
    decreases |list| - from
  {
    if from == |list| || Before(o, p, list[from]) then from
    else InsertPositionFrom(o, list, p, from + 1)
  }

  function InsertPosition(o: Order, list: seq<Page>, p: Page): nat {
    InsertPositionFrom(o, list, p, 0)
  }

  /** The index is pinned down by what the loop stops on. */
  lemma {:induction false} InsertPositionIs(o: Order, list: seq<Page>, p: Page, at: nat)
    requires at <= |list|
    requires forall j | 0 <= j < at :: !Before(o, p, list[j])
    requires at == |list| || Before(o, p, list[at])
    ensures InsertPosition(o, list, p) == at
  {
  }

  /** vector_insert of `p` at its insertion position. */
  function Insert(o: Order, list: seq<Page>, p: Page): seq<Page> {
    SpliceIn(list, InsertPosition(o, list, p), [p])
  }

  /** Inserting keeps every page of the list and adds `p` once. */
  lemma {:induction false} InsertAddsOne(o: Order, list: seq<Page>, p: Page)
    ensures multiset(Insert(o, list, p)) == multiset(list) + multiset{p}
  {
    var i := InsertPosition(o, list, p);
    assert list == list[..i] + list[i..];
  }

  /** Inserting into a sorted list keeps it sorted. */
  lemma {:induction false} InsertSorted(o: Order, list: seq<Page>, p: Page)
    requires Sorted(o, list)
    ensures Sorted(o, Insert(o, list, p))
  {
    var i := InsertPosition(o, list, p);
    var r := Insert(o, list, p);
    assert |r| == |list| + 1;
    assert forall k | 0 <= k < i :: r[k] == list[k];
    assert r[i] == p;
    assert forall k | i < k < |r| :: r[k] == list[k - 1];
    forall a, b | 0 <= a < b < |r|
      ensures !Before(o, r[b], r[a])
    {
      if b == i {
        // r[a] is list[a], in front of the position: p does not precede it.
      } else if a == i {
        // r[b] is list[b - 1], at or behind the position, where p precedes list[i].
        if Before(o, list[b - 1], p) {
          BeforeTransitive(o, list[b - 1], p, list[i]);
          if b - 1 == i {
            BeforeAsymmetric(o, list[i], list[i]);
          }
        }
      }
    }
  }

  /** The pages of `s` whose key is `k`, in their order in `s`. */
  function WithKey(o: Order, s: seq<Page>, k: string): seq<Page> {
    if s == [] then []
    else WithKey(o, s[..|s| - 1], k) + (if Key(o, s[|s| - 1]) == k then [s[|s| - 1]] else [])
  }

  lemma {:induction false} WithKeyAppend(o: Order, a: seq<Page>, b: seq<Page>, k: string)
    ensures WithKey(o, a + b, k) == WithKey(o, a, k) + WithKey(o, b, k)
    decreases |b|
  {
    if b == [] {
      assert a + b == a;
    } else {
      assert (a + b)[..|a + b| - 1] == a + b[..|b| - 1];
      WithKeyAppend(o, a, b[..|b| - 1], k);
    }
  }

  /** None of the pages from `i` on carries `k` when `p` with key `k` precedes `list[i]`. */
  lemma {:induction false} WithKeyAfter(o: Order, list: seq<Page>, p: Page, i: nat)
    requires Sorted(o, list) && i < |list| && Before(o, p, list[i])
    ensures WithKey(o, list[i..], Key(o, p)) == []
  {
    var tail := list[i..];
    forall m | 0 <= m < |tail|
      ensures Key(o, tail[m]) != Key(o, p)
    {
      if m == 0 {
        UnorderedIsEqualKey(o, p, list[i]);
      } else {
        // list[i + m] does not precede list[i], while p does.
        assert !Before(o, list[i + m], list[i]);
      }
    }
    WithKeyNone(o, tail, Key(o, p));
  }

  lemma {:induction false} WithKeyNone(o: Order, s: seq<Page>, k: string)
    requires forall m | 0 <= m < |s| :: Key(o, s[m]) != k
    ensures WithKey(o, s, k) == []
    decreases |s|
  {
    if s != [] {
      WithKeyNone(o, s[..|s| - 1], k);
    }
  }

  lemma WithKeySingle(o: Order, p: Page, k: string)
    ensures WithKey(o, [p], k) == if Key(o, p) == k then [p] else []
  {
    assert [p][..0] == [];
  }

  /** Moving `p` in front of `back` changes nothing among the pages of key `k` when they do not meet. */
  lemma {:induction false} WithKeySwap(o: Order, front: seq<Page>, p: Page, back: seq<Page>, k: string)
    requires Key(o, p) != k || WithKey(o, back, k) == []
    ensures WithKey(o, (front + [p]) + back, k) == WithKey(o, (front + back) + [p], k)
  {
    var wf, wp, wb := WithKey(o, front, k), WithKey(o, [p], k), WithKey(o, back, k);
    WithKeyAppend(o, front + [p], back, k);
    WithKeyAppend(o, front, [p], k);
    WithKeyAppend(o, front + back, [p], k);
    WithKeyAppend(o, front, back, k);
    WithKeySingle(o, p, k);
    SwapAroundEmpty(wf, wp, wb);
  }

  lemma SwapAroundEmpty(a: seq<Page>, b: seq<Page>, c: seq<Page>)
    requires b == [] || c == []
    ensures a + b + c == a + c + b
  {
  }

  /**
   * Insertion is stable: among the pages of one key, `p` lands behind all
   * that were there before it, just as if it had been appended.
   */
  lemma {:induction false} InsertStable(o: Order, list: seq<Page>, p: Page, k: string)
    requires Sorted(o, list)
    ensures WithKey(o, Insert(o, list, p), k) == WithKey(o, list + [p], k)
  {
    var i := InsertPosition(o, list, p);
    var front, back := list[..i], list[i..];
    assert list == front + back;
    assert Insert(o, list, p) == (front + [p]) + back;
    if Key(o, p) == k {
      if i < |list| {
        WithKeyAfter(o, list, p, i);
      } else {
        assert back == [];
      }
    }
    WithKeySwap(o, front, p, back, k);
  }
}
