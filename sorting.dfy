/**
 * Stable sorting as Python's sorted(key=...) and pandas' multi-column
 * sort_values perform it: elements are ordered by a sort key, and elements
 * with equal keys keep their original relative order. Stability is made
 * explicit by tagging every element with its original position and sorting
 * by (key, position), which is a strict total order on the tagged elements.
 */
module Sorting {

  /** Python's `a < b` on str: lexicographic by code point, a proper prefix first. */
  predicate LexLt(a: string, b: string) {
    if a == [] then b != []
    else b != [] && (a[0] < b[0] || (a[0] == b[0] && LexLt(a[1..], b[1..])))
  }

  lemma {:induction false} LexLtIrreflexive(a: string)
    ensures !LexLt(a, a)
  {
    if a != [] {
      LexLtIrreflexive(a[1..]);
    }
  }

  lemma {:induction false} LexLtTransitive(a: string, b: string, c: string)
    requires LexLt(a, b) && LexLt(b, c)
    ensures LexLt(a, c)
  {
    if a != [] && a[0] == b[0] && b[0] == c[0] {
      LexLtTransitive(a[1..], b[1..], c[1..]);
    }
  }

  lemma {:induction false} LexLtTotal(a: string, b: string)
    requires a != b
    ensures LexLt(a, b) || LexLt(b, a)
  {
    if a != [] && b != [] && a[0] == b[0] {
      assert a == [a[0]] + a[1..] && b == [b[0]] + b[1..];
      assert a[1..] != b[1..];
      LexLtTotal(a[1..], b[1..]);
    }
  }

  /**
   * A composite sort key compared field by field: two integers, a string
   * with its code-point order, and a final integer.
   */
  datatype SortKey = SortKey(major: int, tag: int, name: string, minor: int)

  predicate KeyLt(x: SortKey, y: SortKey) {
    || x.major < y.major
    || (x.major == y.major && x.tag < y.tag)
    || (x.major == y.major && x.tag == y.tag && LexLt(x.name, y.name))
    || (x.major == y.major && x.tag == y.tag && x.name == y.name && x.minor < y.minor)
  }

  lemma KeyLtTransitive(x: SortKey, y: SortKey, z: SortKey)
    requires KeyLt(x, y) && KeyLt(y, z)
    ensures KeyLt(x, z)
  {
    if x.major == y.major == z.major && x.tag == y.tag == z.tag {
      if LexLt(x.name, y.name) && LexLt(y.name, z.name) {
        LexLtTransitive(x.name, y.name, z.name);
      }
    }
  }

  lemma KeyLtIrreflexive(x: SortKey)
    ensures !KeyLt(x, x)
  {
    LexLtIrreflexive(x.name);
  }

  lemma KeyTrichotomy(x: SortKey, y: SortKey)
    ensures KeyLt(x, y) || x == y || KeyLt(y, x)
  {
    if x.name != y.name {
      LexLtTotal(x.name, y.name);
    }
  }

  /** An element with its sort key and its position in the input. */
  datatype Tagged<T> = Tagged(key: SortKey, pos: int, item: T)

  /** The strict order stable sorting realises: by key, then by original position. */
  predicate Before<T>(x: Tagged<T>, y: Tagged<T>) {
    KeyLt(x.key, y.key) || (x.key == y.key && x.pos < y.pos)
  }

  lemma BeforeTransitive<T>(x: Tagged<T>, y: Tagged<T>, z: Tagged<T>)
    requires Before(x, y) && Before(y, z)
    ensures Before(x, z)
  {
    if KeyLt(x.key, y.key) && KeyLt(y.key, z.key) {
      KeyLtTransitive(x.key, y.key, z.key);
    }
  }

  lemma BeforeTotal<T>(x: Tagged<T>, y: Tagged<T>)
    requires x.pos != y.pos
    ensures Before(x, y) || Before(y, x)
  {
    KeyTrichotomy(x.key, y.key);
  }

  predicate Sorted<T>(s: seq<Tagged<T>>) {
    forall i, j :: 0 <= i < j < |s| ==> Before(s[i], s[j])
  }

  predicate DistinctPositions<T>(s: seq<Tagged<T>>) {
    forall i, j :: 0 <= i < j < |s| ==> s[i].pos != s[j].pos
  }

  /** The elements without their tags. */
  function Items<T>(s: seq<Tagged<T>>): (r: seq<T>)
    ensures |r| == |s|
    ensures forall i :: 0 <= i < |s| ==> r[i] == s[i].item
  {
    if s == [] then [] else [s[0].item] + Items(s[1..])
  }

  /** Each element tagged with its key and its position. */
  function Tag<T>(items: seq<T>, keys: seq<SortKey>): (r: seq<Tagged<T>>)
    requires |keys| == |items|
    ensures |r| == |items| && DistinctPositions(r)
    ensures forall i :: 0 <= i < |r| ==> r[i] == Tagged(keys[i], i, items[i])
  {
    seq(|items|, i requires 0 <= i < |items| => Tagged(keys[i], i, items[i]))
  }

  /** Insert x before the first element it comes Before. */
  function Insert<T>(x: Tagged<T>, s: seq<Tagged<T>>): (r: seq<Tagged<T>>)
    ensures |r| == |s| + 1
  {
    if s == [] || Before(x, s[0]) then [x] + s else [s[0]] + Insert(x, s[1..])
  }

  lemma SortedCons<T>(a: Tagged<T>, t: seq<Tagged<T>>)
    requires Sorted(t)
    requires forall j :: 0 <= j < |t| ==> Before(a, t[j])
    ensures Sorted([a] + t)
  {
    var r := [a] + t;
    forall i, j | 0 <= i < j < |r| ensures Before(r[i], r[j]) {
      if i > 0 {
        assert r[i] == t[i - 1] && r[j] == t[j - 1];
      }
    }
  }

  lemma {:induction false} InsertMultiset<T>(x: Tagged<T>, s: seq<Tagged<T>>)
    ensures multiset(Insert(x, s)) == multiset(s) + multiset{x}
    ensures multiset(Items(Insert(x, s))) == multiset(Items(s)) + multiset{x.item}
  {
    if s == [] || Before(x, s[0]) {
      assert ([x] + s)[1..] == s;
    } else {
      InsertMultiset(x, s[1..]);
      var t := Insert(x, s[1..]);
      assert ([s[0]] + t)[1..] == t;
      assert s == [s[0]] + s[1..];
      assert Items(s) == [s[0].item] + Items(s[1..]);
    }
  }

  lemma {:induction false} InsertSorted<T>(x: Tagged<T>, s: seq<Tagged<T>>)
    requires Sorted(s)
    requires forall i :: 0 <= i < |s| ==> s[i].pos != x.pos
    ensures Sorted(Insert(x, s))
  {
    if s == [] || Before(x, s[0]) {
      forall j | 0 <= j < |s| ensures Before(x, s[j]) {
        if j > 0 { BeforeTransitive(x, s[0], s[j]); }
      }
      SortedCons(x, s);
    } else {
      BeforeTotal(x, s[0]);
      assert Sorted(s[1..]) && forall i :: 0 <= i < |s[1..]| ==> s[1..][i].pos != x.pos by {
        assert forall i :: 0 <= i < |s[1..]| ==> s[1..][i] == s[i + 1];
      }
      InsertSorted(x, s[1..]);
      HeadBeforeInsert(x, s);
      SortedCons(s[0], Insert(x, s[1..]));
    }
  }

  /** The head of a sorted sequence comes before everything inserting x into its tail gives. */
  lemma HeadBeforeInsert<T>(x: Tagged<T>, s: seq<Tagged<T>>)
    requires Sorted(s) && |s| > 0 && Before(s[0], x)
    ensures forall j :: 0 <= j < |Insert(x, s[1..])| ==> Before(s[0], Insert(x, s[1..])[j])
  {
    var t := Insert(x, s[1..]);
    forall j | 0 <= j < |t| ensures Before(s[0], t[j]) {
      InsertMembers(x, s[1..], j);
      if t[j] != x {
        var k :| 0 <= k < |s[1..]| && s[1..][k] == t[j];
        assert s[k + 1] == t[j];
      }
    }
  }

  /** Every element of Insert(x, s) is x or an element of s. */
  lemma {:induction false} InsertMembers<T>(x: Tagged<T>, s: seq<Tagged<T>>, j: int)
    requires 0 <= j < |Insert(x, s)|
    ensures Insert(x, s)[j] == x || Insert(x, s)[j] in s
  {
    if s == [] || Before(x, s[0]) {
      if j > 0 {
        assert Insert(x, s)[j] == s[j - 1];
      }
    } else if j > 0 {
      InsertMembers(x, s[1..], j - 1);
      assert Insert(x, s)[j] == Insert(x, s[1..])[j - 1];
    }
  }

  lemma TailPositions<T>(s: seq<Tagged<T>>)
    requires |s| > 0 && DistinctPositions(s)
    ensures forall x :: x in multiset(s[1..]) ==> x.pos != s[0].pos
  {
    forall x | x in multiset(s[1..]) ensures x.pos != s[0].pos {
      assert x in s[1..];
      var k :| 0 <= k < |s[1..]| && s[1..][k] == x;
      assert s[k + 1] == x;
    }
  }

  lemma ItemsCons<T>(s: seq<Tagged<T>>)
    requires |s| > 0
    ensures multiset(Items(s)) == multiset(Items(s[1..])) + multiset{s[0].item}
  {
    assert Items(s) == [s[0].item] + Items(s[1..]);
  }

  /** One step of insertion sort keeps the result sorted and a permutation. */
  lemma InsertStep<T>(s: seq<Tagged<T>>, rest: seq<Tagged<T>>)
    requires |s| > 0 && DistinctPositions(s)
    requires Sorted(rest)
    requires multiset(rest) == multiset(s[1..])
    requires multiset(Items(rest)) == multiset(Items(s[1..]))
    ensures Sorted(Insert(s[0], rest))
    ensures multiset(Insert(s[0], rest)) == multiset(s)
    ensures multiset(Items(Insert(s[0], rest))) == multiset(Items(s))
  {
    assert s == [s[0]] + s[1..];
    ItemsCons(s);
    TailPositions(s);
    forall i | 0 <= i < |rest| ensures rest[i].pos != s[0].pos {
      assert rest[i] in multiset(rest);
    }
    InsertMultiset(s[0], rest);
    InsertSorted(s[0], rest);
  }

  /** Insertion sort: the result is sorted by (key, position) and a permutation of the input. */
  function InsertionSort<T>(s: seq<Tagged<T>>): (r: seq<Tagged<T>>)
    requires DistinctPositions(s)
    ensures |r| == |s|
    ensures Sorted(r)
    ensures multiset(r) == multiset(s)
    ensures multiset(Items(r)) == multiset(Items(s))
  {
    if s == [] then []
    else
      assert DistinctPositions(s[1..]) by {
        forall i, j | 0 <= i < j < |s[1..]| ensures s[1..][i].pos != s[1..][j].pos {
          assert s[1..][i] == s[i + 1] && s[1..][j] == s[j + 1];
        }
      }
      var rest := InsertionSort(s[1..]);
      InsertStep(s, rest);
      Insert(s[0], rest)
  }

  /** Python's sorted(items, key=...) with the keys given position by position. */
  function StableSort<T>(items: seq<T>, keys: seq<SortKey>): (r: seq<T>)
    requires |keys| == |items|
    ensures |r| == |items|
    ensures multiset(r) == multiset(items)
  {
    var tagged := Tag(items, keys);
    ItemsOfTag(items, keys);
    Items(InsertionSort(tagged))
  }

  lemma ItemsOfTag<T>(items: seq<T>, keys: seq<SortKey>)
    requires |keys| == |items|
    ensures Items(Tag(items, keys)) == items
  {
  }

  /**
   * Stable sorting, element by element: every output element comes from some
   * input position, the keys are non-decreasing and equal keys keep their order.
   */
  lemma StableSortOrder<T>(items: seq<T>, keys: seq<SortKey>)
    requires |keys| == |items|
    ensures var t := InsertionSort(Tag(items, keys));
      && |t| == |items|
      && StableSort(items, keys) == Items(t)
      && (forall i :: 0 <= i < |t| ==> 0 <= t[i].pos < |items| && t[i].key == keys[t[i].pos] && t[i].item == items[t[i].pos])
      && (forall i, j :: 0 <= i < j < |t| ==>
            KeyLt(keys[t[i].pos], keys[t[j].pos]) || (keys[t[i].pos] == keys[t[j].pos] && t[i].pos < t[j].pos))
  {
    var tagged := Tag(items, keys);
    var t := InsertionSort(tagged);
    forall i | 0 <= i < |t|
      ensures 0 <= t[i].pos < |items| && t[i].key == keys[t[i].pos] && t[i].item == items[t[i].pos]
    {
      assert t[i] in multiset(tagged);
      var k :| 0 <= k < |tagged| && tagged[k] == t[i];
    }
  }

  /**
   * Stable sorting as positions: output element i is input element pos[i],
   * the keys at those positions never decrease and equal keys keep their
   * input order.
   */
  lemma StablePositions<T>(items: seq<T>, keys: seq<SortKey>) returns (pos: seq<int>)
    requires |keys| == |items|
    ensures |pos| == |items|
    ensures forall i :: 0 <= i < |pos| ==> 0 <= pos[i] < |items| && StableSort(items, keys)[i] == items[pos[i]]
    ensures forall i, j :: 0 <= i < j < |pos| ==>
      KeyLt(keys[pos[i]], keys[pos[j]]) || (keys[pos[i]] == keys[pos[j]] && pos[i] < pos[j])
  {
    StableSortOrder(items, keys);
    var t := InsertionSort(Tag(items, keys));
    pos := Positions(t);
  }

  /** The original positions of tagged elements, in order. */
  function Positions<T>(t: seq<Tagged<T>>): (r: seq<int>)
    ensures |r| == |t| && forall i :: 0 <= i < |t| ==> r[i] == t[i].pos
  {
    seq(|t|, i requires 0 <= i < |t| => t[i].pos)
  }
}
