/** The order `smart_search` puts its results in when asked for recent
    photos: `items.sort(key=lambda x: x["fileCreatedAt"], reverse=True)`,
    a stable sort on the capture timestamp, newest first. Timestamps are
    ISO-8601 strings and Python compares strings code point by code point. */
module CreatedOrder {
  import opened Values

  /** `a <= b` on Python strings: lexicographic, a proper prefix first. */
  predicate StrLe(a: string, b: string)
    decreases |a|
  {
    if a == [] then true
    else if b == [] then false
    else if a[0] != b[0] then a[0] < b[0]
    else StrLe(a[1..], b[1..])
  }

  lemma {:induction false} StrLeTotal(a: string, b: string)
    ensures StrLe(a, b) || StrLe(b, a)
    decreases |a|
  {
    if a != [] && b != [] && a[0] == b[0] {
      StrLeTotal(a[1..], b[1..]);
    }
  }

  lemma {:induction false} StrLeTransitive(a: string, b: string, c: string)
    requires StrLe(a, b) && StrLe(b, c)
    ensures StrLe(a, c)
    decreases |a|
  {
    if a != [] && b != [] && c != [] && a[0] == b[0] && b[0] == c[0] {
      StrLeTransitive(a[1..], b[1..], c[1..]);
    }
  }

  /** The sort key of an item: its `fileCreatedAt` string. Items reach the sort
      only once every key has been found to be a string, so the fallback ""
      is never used by the model. */
  function Key(v: Value): string {
    if v.Obj? && "fileCreatedAt" in v.fields && v.fields["fileCreatedAt"].Str?
    then v.fields["fileCreatedAt"].s
    else ""
  }

  /** Newest first: no item has a later key than one before it. */
  predicate SortedDesc<T>(xs: seq<T>, key: T -> string) {
    forall i, j :: 0 <= i < j < |xs| ==> StrLe(key(xs[j]), key(xs[i]))
  }

  /** Inserts `x` before the first item that is not newer than it, so that
      among equal keys the earlier item stays first. */
  function Insert<T>(x: T, xs: seq<T>, key: T -> string): seq<T>
    decreases |xs|
  {
    if xs == [] then [x]
    else if StrLe(key(xs[0]), key(x)) then [x] + xs
    else [xs[0]] + Insert(x, xs[1..], key)
  }

  /** `sort(key=key, reverse=True)`: a stable insertion sort, newest first. */
  function SortDesc<T>(xs: seq<T>, key: T -> string): seq<T>
    decreases |xs|
  {
    if xs == [] then [] else Insert(xs[0], SortDesc(xs[1..], key), key)
  }

  lemma {:induction false} InsertPermutes<T>(x: T, xs: seq<T>, key: T -> string)
    ensures multiset(Insert(x, xs, key)) == multiset(xs) + multiset{x}
    decreases |xs|
  {
    if xs != [] && !StrLe(key(xs[0]), key(x)) {
      InsertPermutes(x, xs[1..], key);
      assert xs == [xs[0]] + xs[1..];
    }
  }

  /** No item of `xs` has a key later than `b`. */
  predicate NotNewerThan<T>(xs: seq<T>, key: T -> string, b: string) {
    forall i :: 0 <= i < |xs| ==> StrLe(key(xs[i]), b)
  }

  lemma {:induction false} InsertNotNewer<T>(x: T, xs: seq<T>, key: T -> string, b: string)
    requires NotNewerThan(xs, key, b) && StrLe(key(x), b)
    ensures NotNewerThan(Insert(x, xs, key), key, b)
    decreases |xs|
  {
    if xs != [] && !StrLe(key(xs[0]), key(x)) {
      InsertNotNewer(x, xs[1..], key, b);
    }
  }

  /** Putting an item in front of a newest-first sequence none of whose items
      is newer keeps it newest first. */
  lemma ConsSorted<T>(y: T, ys: seq<T>, key: T -> string)
    requires SortedDesc(ys, key) && NotNewerThan(ys, key, key(y))
    ensures SortedDesc([y] + ys, key)
  {
    var r := [y] + ys;
    forall i, j | 0 <= i < j < |r| ensures StrLe(key(r[j]), key(r[i])) {
      if i > 0 {
        assert r[i] == ys[i - 1] && r[j] == ys[j - 1];
      }
    }
  }

  lemma {:induction false} InsertSorted<T>(x: T, xs: seq<T>, key: T -> string)
    requires SortedDesc(xs, key)
    ensures SortedDesc(Insert(x, xs, key), key)
    decreases |xs|
  {
    if xs == [] {
    } else if StrLe(key(xs[0]), key(x)) {
      forall i | 0 <= i < |xs| ensures StrLe(key(xs[i]), key(x)) {
        if i > 0 {
          StrLeTransitive(key(xs[i]), key(xs[0]), key(x));
        }
      }
      ConsSorted(x, xs, key);
    } else {
      var rest := xs[1..];
      InsertSorted(x, rest, key);
      StrLeTotal(key(xs[0]), key(x));
      assert NotNewerThan(rest, key, key(xs[0])) by {
        forall i | 0 <= i < |rest| ensures StrLe(key(rest[i]), key(xs[0])) {
          assert rest[i] == xs[i + 1];
        }
      }
      InsertNotNewer(x, rest, key, key(xs[0]));
      ConsSorted(xs[0], Insert(x, rest, key), key);
    }
  }

  /** The sorted sequence is newest first and holds the same items. */
  lemma {:induction false} SortDescCorrect<T>(xs: seq<T>, key: T -> string)
    ensures SortedDesc(SortDesc(xs, key), key)
    ensures multiset(SortDesc(xs, key)) == multiset(xs)
    decreases |xs|
  {
    if xs != [] {
      var sortedRest := SortDesc(xs[1..], key);
      SortDescCorrect(xs[1..], key);
      InsertSorted(xs[0], sortedRest, key);
      InsertPermutes(xs[0], sortedRest, key);
      assert xs == [xs[0]] + xs[1..];
    }
  }
}
