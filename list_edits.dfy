/** The three list edits every section editor repeats: append a record with
    placeholder defaults (`[...xs, item]`), replace the record at one position
    (`const c = [...xs]; c[i] = v`), and remove one position with
    `xs.filter((_, k) => k !== i)`.

    Each edit is given twice: as a constructive function and as a pointwise
    predicate that says what the result must look like. The functions are
    proved to meet the predicates. */
module ListEdits {

  /** `r` is `s` with `x` added at the end and nothing else changed. */
  predicate Appended<T(==)>(s: seq<T>, x: T, r: seq<T>) {
    |r| == |s| + 1 && r[..|s|] == s && r[|s|] == x
  }

  /** `r` has the length of `s` and agrees with it at every position but `i`. */
  predicate SameExceptAt<T(==)>(s: seq<T>, i: int, r: seq<T>) {
    && 0 <= i < |s|
    && |r| == |s|
    && forall j :: 0 <= j < |s| && j != i ==> r[j] == s[j]
  }

  /** `r` is `s` with position `i` holding `x`. */
  predicate ReplacedAt<T(==)>(s: seq<T>, i: int, x: T, r: seq<T>) {
    SameExceptAt(s, i, r) && r[i] == x
  }

  /** `r` is `s` without position `i`, the rest in their old order; an index
      outside `s` removes nothing. */
  predicate RemovedAt<T(==)>(s: seq<T>, i: int, r: seq<T>) {
    if 0 <= i < |s| then
      && |r| == |s| - 1
      && (forall j :: 0 <= j < i ==> r[j] == s[j])
      && (forall j :: i <= j < |r| ==> r[j] == s[j + 1])
    else
      r == s
  }

  /** `[...s, x]` */
  function Append<T(==)>(s: seq<T>, x: T): (r: seq<T>)
    ensures Appended(s, x, r)
  {
    s + [x]
  }

  /** `const c = [...s]; c[i] = x; return c` for a position the list has. */
  function SetAt<T(==)>(s: seq<T>, i: int, x: T): (r: seq<T>)
    requires 0 <= i < |s|
    ensures ReplacedAt(s, i, x, r)
  {
    s[i := x]
  }

  /** `[...s]` for a handler that goes on to change an element of the copy
      in place: a fresh array holding `s`. */
  method CopyToArray<T>(s: seq<T>) returns (a: array<T>)
    ensures fresh(a) && a[..] == s
  {
    a := new T[|s|](k requires 0 <= k < |s| => s[k]);
  }

  /** `s.filter((_, k) => k !== i)`: walks the list keeping every element
      whose position differs from `i`. Each step drops the head and shifts
      the index, so the head is dropped exactly when `i` has reached 0. */
  function RemoveAt<T(==)>(s: seq<T>, i: int): (r: seq<T>)
    ensures RemovedAt(s, i, r)
    ensures |r| <= |s|
    decreases |s|
  {
    if s == [] then []
    else (if i == 0 then [] else [s[0]]) + RemoveAt(s[1..], i - 1)
  }

  /** The pointwise descriptions determine their result: two lists that
      both describe the same removal are equal. */
  lemma RemovedAtUnique<T>(s: seq<T>, i: int, r1: seq<T>, r2: seq<T>)
    requires RemovedAt(s, i, r1) && RemovedAt(s, i, r2)
    ensures r1 == r2
  {
    if 0 <= i < |s| {
      forall j | 0 <= j < |r1| ensures r1[j] == r2[j] {
        if j < i {
        } else {
        }
      }
    }
  }

  /** Removing position `i` is slicing it out. */
  lemma RemoveAtIsSlice<T>(s: seq<T>, i: int)
    requires 0 <= i < |s|
    ensures RemoveAt(s, i) == s[..i] + s[i + 1..]
  {
    RemovedAtUnique(s, i, RemoveAt(s, i), s[..i] + s[i + 1..]);
  }

  /** Removing the element just appended gives the list back: the remove
      button undoes the add button. */
  lemma RemoveUndoesAppend<T>(s: seq<T>, x: T)
    ensures RemoveAt(Append(s, x), |s|) == s
  {
    var t := Append(s, x);
    assert t[..|s|] == s;
    RemoveAtIsSlice(t, |s|);
  }

  /** Removal keeps exactly the other elements: as a multiset, the result
      plus the removed element is the original list. */
  lemma RemoveAtMultiset<T>(s: seq<T>, i: int)
    requires 0 <= i < |s|
    ensures multiset(RemoveAt(s, i)) + multiset{s[i]} == multiset(s)
  {
    RemoveAtIsSlice(s, i);
    SliceOutMultiset(s, i);
  }

  lemma SliceOutMultiset<T>(s: seq<T>, i: int)
    requires 0 <= i < |s|
    ensures multiset(s[..i] + s[i + 1..]) + multiset{s[i]} == multiset(s)
  {
    assert s == s[..i] + [s[i]] + s[i + 1..];
  }

  /** Writing back the value a position already holds changes nothing, and
      writing the old value back undoes an edit. */
  lemma SetAtRestores<T>(s: seq<T>, i: int, x: T)
    requires 0 <= i < |s|
    ensures SetAt(SetAt(s, i, x), i, s[i]) == s
  {
  }
}
