/**
 * Substring containment, as Kotlin's `String.contains` and Java's
 * `String.contains` decide it: `t` occurs somewhere in `s`, at any offset.
 */
module Text {

  predicate Contains(s: string, t: string) {
    exists i :: 0 <= i <= |s| - |t| && OccursAt(s, t, i)
  }

  /** `t` occurs in `s` starting at offset `i`. */
  predicate OccursAt(s: string, t: string, i: int) {
    0 <= i <= |s| - |t| && s[i..i + |t|] == t
  }

  /** `t` is found wherever it is placed: before, between or after other text. */
  lemma ContainsInside(a: string, t: string, b: string)
    ensures Contains(a + t + b, t)
  {
    var s := a + t + b;
    assert s[|a|..|a| + |t|] == t;
    assert OccursAt(s, t, |a|);
  }

  /** A directory path ending in `dir` contains `dir`, whatever the root */
  lemma JoinedPathContains(root: string, dir: string)
    ensures Contains(root + "/" + dir, dir)
  {
    ContainsInside(root + "/", dir, "");
    assert root + "/" + dir + "" == root + "/" + dir;
  }
}
