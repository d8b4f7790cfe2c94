/**
 * The dict, list and string built-ins the request builder calls:
 * `dict.pop`, `list.index`, `list.insert`, `str.join`, and `str.split` as
 * the reading that shows a joined path keeps its segments and their order.
 */
module Builtins {

  /** `m.pop(key, default)`: the value under key (or default) and the dict without key. */
  function DictPop<K, V>(m: map<K, V>, key: K, default: V): (r: (V, map<K, V>))
    ensures r.1 == m - {key} && key !in r.1
    ensures key in m ==> r.0 == m[key]
    ensures key !in m ==> r.0 == default
  {
    (if key in m then m[key] else default, m - {key})
  }

  /** `s.index(x)`: the first position holding x (Python raises ValueError when there is none). */
  function FirstIndex<T(==)>(s: seq<T>, x: T): (k: nat)
    requires x in s
    ensures k < |s| && s[k] == x
    ensures forall j :: 0 <= j < k ==> s[j] != x
  {
    if s[0] == x then 0 else 1 + FirstIndex(s[1..], x)
  }

  /** The first occurrence of x in a + [x] + b is the one after a when a has none. */
  lemma FirstIndexPast<T>(a: seq<T>, x: T, b: seq<T>)
    requires x !in a
    ensures x in a + [x] + b && FirstIndex(a + [x] + b, x) == |a|
  {
    var s := a + [x] + b;
    assert s[|a|] == x;
    assert forall j :: 0 <= j < |a| ==> s[j] == a[j];
  }

  /** `s.insert(k, x)` for a position inside the list: x lands at k, later items move up one. */
  function InsertAt<T>(s: seq<T>, k: nat, x: T): (r: seq<T>)
    requires k <= |s|
    ensures |r| == |s| + 1 && r[k] == x
    ensures forall j :: 0 <= j < k ==> r[j] == s[j]
    ensures forall j :: k < j < |r| ==> r[j] == s[j - 1]
    ensures multiset(r) == multiset(s) + multiset{x}
  {
    assert s == s[..k] + s[k..];
    s[..k] + [x] + s[k..]
  }

  /** `sep.join(segs)`. */
  function Join(segs: seq<string>, sep: string): string
  {
    if segs == [] then ""
    else if |segs| == 1 then segs[0]
    else segs[0] + sep + Join(segs[1..], sep)
  }

  /** `s.split(sep)` for a one-character separator: the pieces between the separators. */
  function Split(s: string, sep: char): (parts: seq<string>)
    ensures parts != []
    decreases |s|
  {
    if sep in s then
      var k := FirstIndex(s, sep);
      [s[..k]] + Split(s[k + 1..], sep)
    else
      [s]
  }

  /**
   * Joining segments that hold no separator can be read back exactly:
   * the joined string keeps every segment and their order.
   */
  lemma {:induction false} SplitJoin(segs: seq<string>, sep: char)
    requires segs != []
    requires forall i :: 0 <= i < |segs| ==> sep !in segs[i]
    ensures Split(Join(segs, [sep]), sep) == segs
  {
    var s := Join(segs, [sep]);
    if |segs| == 1 {
      assert sep !in s;
    } else {
      var head := segs[0];
      var tail := Join(segs[1..], [sep]);
      assert s == head + [sep] + tail;
      FirstIndexPast(head, sep, tail);
      assert s[..|head|] == head;
      assert s[|head| + 1..] == tail;
      SplitJoin(segs[1..], sep);
      assert segs == [head] + segs[1..];
    }
  }
}
