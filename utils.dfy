/** The helpers of js/utils.js: picking distinct random indices and editing a
  * space-separated CSS class string with JavaScript's substring semantics. */
module Utils {

  /** `d` is a value that `Math.floor(Math.random() * m)` can take, given that
    * `Math.random()` lies in [0, 1): [0, m) for positive `m`, [m, 0] otherwise. */
  predicate IsFloorDraw(d: int, m: int) {
    if m > 0 then 0 <= d < m else m <= d <= 0
  }

  predicate Distinct<T(==)>(s: seq<T>) {
    forall a, b :: 0 <= a < b < |s| ==> s[a] != s[b]
  }

  predicate StrictlyAscending(s: seq<int>) {
    forall a, b :: 0 <= a < b < |s| ==> s[a] < s[b]
  }

  /** `getRandNums(k, n)`: `k` indices from [0, n), the i-th built from the draw
    * `Math.floor(Math.random() * (n - i))` by stepping over the earlier picks,
    * which are kept in the ascending list `sorted`. */
  method GetRandNums(k: nat, n: int, draws: seq<int>) returns (selection: seq<int>)
    requires |draws| == k
    requires forall i :: 0 <= i < k ==> IsFloorDraw(draws[i], n - i)
    ensures |selection| == k
    ensures Distinct(selection)
    ensures k <= n ==> forall t :: 0 <= t < k ==> 0 <= selection[t] < n
  {
    selection := [];
    var sorted: seq<int> := [];
    for i := 0 to k
      invariant |selection| == i && |sorted| == i
      invariant multiset(sorted) == multiset(selection)
      invariant StrictlyAscending(sorted) && Distinct(selection)
      invariant k <= n ==> forall t :: 0 <= t < i ==> 0 <= selection[t] < n
    {
      var rand := draws[i];
      var j := 0;
      while j < i && sorted[j] <= rand
        invariant 0 <= j <= i
        invariant rand == draws[i] + j
        invariant forall t :: 0 <= t < j ==> sorted[t] < rand
      {
        rand := rand + 1;
        j := j + 1;
      }
      InsertKeepsAscending(sorted, j, rand);
      assert rand !in multiset(selection);
      InsertKeepsElements(sorted, j, rand);
      selection := selection + [rand];
      sorted := sorted[..j] + [rand] + sorted[j..];
    }
  }

  /** Inserting `x` into an ascending list at the place where the smaller
    * elements end keeps it strictly ascending, and `x` was not in it. */
  lemma InsertKeepsAscending(sorted: seq<int>, j: int, x: int)
    requires StrictlyAscending(sorted) && 0 <= j <= |sorted|
    requires forall t :: 0 <= t < j ==> sorted[t] < x
    requires j < |sorted| ==> x < sorted[j]
    ensures StrictlyAscending(sorted[..j] + [x] + sorted[j..])
    ensures x !in sorted
  {
  }

  lemma InsertKeepsElements(sorted: seq<int>, j: int, x: int)
    requires 0 <= j <= |sorted|
    ensures multiset(sorted[..j] + [x] + sorted[j..]) == multiset(sorted) + multiset{x}
  {
    assert sorted == sorted[..j] + sorted[j..];
  }

  /** `t` occurs in `s` at position `i`. */
  predicate OccursAt(s: string, t: string, i: int) {
    0 <= i && i + |t| <= |s| && s[i..i + |t|] == t
  }

  predicate Contains(s: string, t: string) {
    exists i :: 0 <= i <= |s| && OccursAt(s, t, i)
  }

  function IndexOfFrom(s: string, t: string, from: nat): (r: int)
    ensures r == -1 || (from <= r && OccursAt(s, t, r))
    ensures forall i :: from <= i && (r == -1 || i < r) ==> !OccursAt(s, t, i)
    decreases |s| - from
  {
    if from + |t| > |s| then -1
    else if s[from..from + |t|] == t then from
    else IndexOfFrom(s, t, from + 1)
  }

  /** JavaScript's `s.indexOf(t)`: the first position of `t` in `s`, or -1. */
  function IndexOf(s: string, t: string): (r: int)
    ensures r == -1 <==> !Contains(s, t)
    ensures r != -1 ==> OccursAt(s, t, r) && forall i :: 0 <= i < r ==> !OccursAt(s, t, i)
  {
    IndexOfFrom(s, t, 0)
  }

  /** `r` is `s` with the first occurrence of `t` replaced by `u`. */
  predicate ReplacesFirst(s: string, t: string, u: string, r: string) {
    exists i :: 0 <= i <= |s| && OccursAt(s, t, i) && (forall j :: 0 <= j < i ==> !OccursAt(s, t, j)) &&
      r == s[..i] + u + s[i + |t|..]
  }

  /** JavaScript's `s.replace(t, u)` for a string pattern `t`: only the first
    * occurrence of `t` is replaced. */
  function ReplaceFirst(s: string, t: string, u: string): (r: string)
    ensures !Contains(s, t) ==> r == s
    ensures Contains(s, t) ==> ReplacesFirst(s, t, u, r) && |r| == |s| - |t| + |u|
  {
    var i := IndexOf(s, t);
    if i == -1 then s else s[..i] + u + s[i + |t|..]
  }

  /** The class string `addClass` writes back. */
  function WithClassAdded(className: string, classToAdd: string): (r: string)
    ensures Contains(className, classToAdd) ==> r == className
    ensures !Contains(className, classToAdd) && className == "" ==> r == classToAdd
    ensures !Contains(className, classToAdd) && className != "" ==> r == className + " " + classToAdd
  {
    if IndexOf(className, classToAdd) != -1 then className
    else if className == "" then classToAdd
    else className + " " + classToAdd
  }

  /** The class string `removeClass` writes back: the first of `" " + c`,
    * `c + " "` and `c` that occurs is cut out, at its first occurrence. */
  function WithClassRemoved(className: string, c: string): (r: string)
    ensures Contains(className, " " + c) ==> ReplacesFirst(className, " " + c, "", r)
    ensures !Contains(className, " " + c) && Contains(className, c + " ") ==>
      ReplacesFirst(className, c + " ", "", r)
    ensures !Contains(className, " " + c) && !Contains(className, c + " ") && Contains(className, c) ==>
      ReplacesFirst(className, c, "", r)
  {
    if IndexOf(className, " " + c) != -1 then ReplaceFirst(className, " " + c, "")
    else if IndexOf(className, c + " ") != -1 then ReplaceFirst(className, c + " ", "")
    else if IndexOf(className, c) != -1 then ReplaceFirst(className, c, "")
    else className
  }

  lemma OccursInPadded(s: string, c: string, i: int)
    ensures OccursAt(s, " " + c, i) ==> OccursAt(s, c, i + 1)
    ensures OccursAt(s, c + " ", i) ==> OccursAt(s, c, i)
  {
    if OccursAt(s, " " + c, i) {
      assert s[i + 1..i + 1 + |c|] == s[i..i + 1 + |c|][1..];
    }
    if OccursAt(s, c + " ", i) {
      assert s[i..i + |c|] == s[i..i + |c| + 1][..|c|];
    }
  }

  /** After `addClass`, the class string holds the class (as a substring). */
  lemma AddedClassIsPresent(className: string, c: string)
    ensures Contains(WithClassAdded(className, c), c)
  {
    var r := WithClassAdded(className, c);
    if !Contains(className, c) {
      if className == "" {
        assert OccursAt(r, c, 0);
      } else {
        assert r[|className| + 1..] == c;
        assert OccursAt(r, c, |className| + 1);
      }
    }
  }

  /** `addClass` is idempotent. */
  lemma AddClassIdempotent(className: string, c: string)
    ensures WithClassAdded(WithClassAdded(className, c), c) == WithClassAdded(className, c)
  {
    AddedClassIsPresent(className, c);
  }

  /** `removeClass` leaves a string without the class untouched. */
  lemma RemoveAbsentClass(className: string, c: string)
    requires !Contains(className, c)
    ensures WithClassRemoved(className, c) == className
  {
    forall i ensures !OccursAt(className, " " + c, i) && !OccursAt(className, c + " ", i) {
      OccursInPadded(className, c, i);
    }
  }

  /** A change made by `removeClass` shortens the string by |c| + 1 when a
    * space went with the class, and by |c| otherwise. */
  lemma RemoveClassLength(className: string, c: string)
    ensures var r := WithClassRemoved(className, c);
      if Contains(className, " " + c) || Contains(className, c + " ") then |r| == |className| - |c| - 1
      else if Contains(className, c) then |r| == |className| - |c|
      else r == className
  {
  }

  predicate NoSpace(c: string) {
    forall i :: 0 <= i < |c| ==> c[i] != ' '
  }

  /** For a class name without spaces, `removeClass` undoes `addClass`. */
  lemma RemoveUndoesAdd(className: string, c: string)
    requires NoSpace(c) && !Contains(className, c)
    ensures WithClassRemoved(WithClassAdded(className, c), c) == className
  {
    var s := WithClassAdded(className, c);
    if className == "" {
      assert s == c;
      forall i ensures !OccursAt(s, " " + c, i) && !OccursAt(s, c + " ", i) { }
      assert OccursAt(s, c, 0);
      assert IndexOf(s, c) == 0;
    } else {
      var n := |className|;
      assert s == className + " " + c;
      assert OccursAt(s, " " + c, n) by { assert s[n..n + 1 + |c|] == " " + c; }
      forall i | 0 <= i < n ensures !OccursAt(s, " " + c, i) {
        if i + 1 + |c| <= n {
          OccursInPadded(s, c, i);
          assert s[i + 1..i + 1 + |c|] == className[i + 1..i + 1 + |c|];
          assert !OccursAt(className, c, i + 1);
        } else {
          assert s[n] == ' ';
          assert (" " + c)[n - i] == c[n - i - 1] != ' ';
          assert s[i..i + 1 + |c|][n - i] == s[n];
        }
      }
      assert IndexOf(s, " " + c) == n;
      assert s[..n] + s[n + 1 + |c|..] == className;
    }
  }

  /** A DOM element, reduced to its `className`. */
  class Element {
    var className: string

    constructor(className: string)
      ensures this.className == className
    {
      this.className := className;
    }
  }

  /** `addClass(element, classToAdd)`. */
  method AddClass(element: Element, classToAdd: string)
    modifies element
    ensures element.className == WithClassAdded(old(element.className), classToAdd)
  {
    var currentClassValue := element.className;
    if IndexOf(currentClassValue, classToAdd) == -1 {
      if currentClassValue == "" {
        element.className := classToAdd;
      } else {
        element.className := element.className + " " + classToAdd;
      }
    }
  }

  /** `removeClass(element, classToRemove)`. */
  method RemoveClass(element: Element, classToRemove: string)
    modifies element
    ensures element.className == WithClassRemoved(old(element.className), classToRemove)
  {
    var currentClassValue := element.className;
    if IndexOf(currentClassValue, " " + classToRemove) != -1 {
      element.className := ReplaceFirst(element.className, " " + classToRemove, "");
      return;
    }
    if IndexOf(currentClassValue, classToRemove + " ") != -1 {
      element.className := ReplaceFirst(element.className, classToRemove + " ", "");
      return;
    }
    if IndexOf(currentClassValue, classToRemove) != -1 {
      element.className := ReplaceFirst(element.className, classToRemove, "");
      return;
    }
  }
}
