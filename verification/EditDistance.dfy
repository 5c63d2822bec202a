/** The transcript edit distance of scripts/qa/asr_long_sample.py.

  `Compute` is the two-row table of the source. `Distance` is the recursion the
  table fills in. What either one means is said without them: an edit path is a
  list of strings in which each string becomes the next by one single-character
  insertion, deletion or substitution, and the distance is the length of a
  shortest path. `Distance` is shown to be a metric on the way.
 */
module EditDistance {

  // ---- What the number means ----

  /** `b` is `a` with the character `b[k]` inserted before position `k`. */
  ghost predicate InsertsAt(a: string, b: string, k: nat)
  {
    k <= |a| && |b| == |a| + 1 && b == a[..k] + [b[k]] + a[k..]
  }

  /** `b` is `a` with the character at position `k` replaced. */
  ghost predicate SubstitutesAt(a: string, b: string, k: nat)
  {
    k < |a| == |b| && b == a[k := b[k]]
  }

  ghost predicate EditsAt(a: string, b: string, k: nat)
  {
    InsertsAt(a, b, k) || InsertsAt(b, a, k) || SubstitutesAt(a, b, k)
  }

  ghost predicate SingleEdit(a: string, b: string)
  {
    exists k: nat :: EditsAt(a, b, k)
  }

  /** `path` rewrites `left` into `right` in `|path| - 1` single edits. */
  ghost predicate IsEditPath(path: seq<string>, left: string, right: string)
  {
    && |path| > 0
    && path[0] == left
    && path[|path| - 1] == right
    && forall i | 0 <= i < |path| - 1 :: SingleEdit(path[i], path[i + 1])
  }

  ghost predicate IsLeastEditCount(left: string, right: string, d: nat)
  {
    && (exists path :: IsEditPath(path, left, right) && |path| == d + 1)
    && (forall path :: IsEditPath(path, left, right) ==> d + 1 <= |path|)
  }

  // ---- The recursion behind the table ----

  function Min3(a: nat, b: nat, c: nat): nat {
    if a <= b && a <= c then a else if b <= c then b else c
  }

  function Mismatch(a: char, b: char): nat {
    if a != b then 1 else 0
  }

  function Init(s: string): string
    requires s != ""
  {
    s[..|s| - 1]
  }

  function Last(s: string): char
    requires s != ""
  {
    s[|s| - 1]
  }

  function Distance(left: string, right: string): nat
    decreases |left| + |right|
  {
    if left == "" then |right|
    else if right == "" then |left|
    else Min3(Distance(left, Init(right)) + 1,
              Distance(Init(left), right) + 1,
              Distance(Init(left), Init(right)) + Mismatch(Last(left), Last(right)))
  }

  /** The table entry for the first `i` characters of `left` and the first `j` of `right`. */
  ghost function Cell(left: string, right: string, i: nat, j: nat): nat
    requires i <= |left| && j <= |right|
  {
    Distance(left[..i], right[..j])
  }

  lemma TableEdges(left: string, right: string)
    ensures forall j | 0 <= j <= |right| :: Cell(left, right, 0, j) == j
    ensures forall i | 0 <= i <= |left| :: Cell(left, right, i, 0) == i
    ensures Cell(left, right, |left|, |right|) == Distance(left, right)
  {
    assert left[..|left|] == left && right[..|right|] == right;
  }

  lemma TableStep(left: string, right: string, i: nat, j: nat)
    requires i < |left| && j < |right|
    ensures Cell(left, right, i + 1, j + 1)
         == Min3(Cell(left, right, i + 1, j) + 1,
                 Cell(left, right, i, j + 1) + 1,
                 Cell(left, right, i, j) + Mismatch(left[i], right[j]))
  {
    assert Init(left[..i + 1]) == left[..i] && Init(right[..j + 1]) == right[..j];
  }

  /** The two-row table: `previous` is the row of the prefix read so far. */
  method Compute(left: string, right: string) returns (distance: nat)
    ensures distance == Distance(left, right)
    ensures IsLeastEditCount(left, right, distance)
  {
    TableEdges(left, right);
    var previous: seq<nat> := seq(|right| + 1, i => i);
    for i := 0 to |left|
      invariant |previous| == |right| + 1
      invariant forall j | 0 <= j <= |right| :: previous[j] == Cell(left, right, i, j)
    {
      var current: seq<nat> := [i + 1];
      for j := 0 to |right|
        invariant |current| == j + 1
        invariant forall k | 0 <= k <= j :: current[k] == Cell(left, right, i + 1, k)
      {
        TableStep(left, right, i, j);
        current := current + [Min3(current[|current| - 1] + 1,
                                   previous[j + 1] + 1,
                                   previous[j] + Mismatch(left[i], right[j]))];
      }
      previous := current;
    }
    distance := previous[|previous| - 1];
    DistanceIsLeast(left, right);
  }

  // ---- Metric laws ----

  lemma {:induction false} LengthBounds(a: string, b: string)
    ensures Distance(a, b) >= |a| - |b|
    ensures Distance(a, b) >= |b| - |a|
    ensures Distance(a, b) <= if |a| < |b| then |b| else |a|
    decreases |a| + |b|
  {
    if a != "" && b != "" {
      LengthBounds(a, Init(b));
      LengthBounds(Init(a), b);
      LengthBounds(Init(a), Init(b));
    }
  }

  lemma {:induction false} ZeroIffEqual(a: string, b: string)
    ensures Distance(a, b) == 0 <==> a == b
    decreases |a| + |b|
  {
    if a != "" && b != "" {
      ZeroIffEqual(Init(a), Init(b));
      assert a == Init(a) + [Last(a)] && b == Init(b) + [Last(b)];
    }
  }

  lemma {:induction false} Symmetric(a: string, b: string)
    ensures Distance(a, b) == Distance(b, a)
    decreases |a| + |b|
  {
    if a != "" && b != "" {
      Symmetric(a, Init(b));
      Symmetric(Init(a), b);
      Symmetric(Init(a), Init(b));
    }
  }

  /** Adding a last character to one side costs at most one edit. */
  lemma OneMoreCharacter(a: string, b: string)
    ensures a != "" ==> Distance(a, b) <= Distance(Init(a), b) + 1
    ensures b != "" ==> Distance(a, b) <= Distance(a, Init(b)) + 1
  {
    LengthBounds(a, b);
  }

  /** The last edit of a shortest script, for any two strings. */
  lemma LastEdit(a: string, b: string)
    requires a != "" && b != ""
    ensures var d := Distance(a, b);
            var kept := Distance(Init(a), Init(b)) + Mismatch(Last(a), Last(b));
            && d <= kept
            && (d == Distance(a, Init(b)) + 1 || d == Distance(Init(a), b) + 1 || d == kept)
  {
  }

  /** Split on the last edit of each side; in every case one of the three strings gets shorter. */
  lemma {:induction false} Triangle(a: string, b: string, c: string)
    ensures Distance(a, c) <= Distance(a, b) + Distance(b, c)
    decreases |a| + |b| + |c|
  {
    if a == "" || b == "" || c == "" {
      LengthBounds(a, b);
      LengthBounds(b, c);
      LengthBounds(a, c);
    } else {
      OneMoreCharacter(a, c);
      LastEdit(a, c);
      LastEdit(a, b);
      LastEdit(b, c);
      hide Distance, Last;
      Triangle(Init(a), b, c);
      Triangle(a, b, Init(c));
      Triangle(a, Init(b), c);
      Triangle(a, Init(b), Init(c));
      Triangle(Init(a), Init(b), c);
      Triangle(Init(a), Init(b), Init(c));
    }
  }

  // ---- No path is shorter ----

  lemma {:induction false} CommonSuffix(a: string, b: string, suffix: string)
    ensures Distance(a + suffix, b + suffix) <= Distance(a, b)
  {
    if suffix == "" {
      assert a + suffix == a && b + suffix == b;
    } else {
      assert Init(a + suffix) == a + Init(suffix) && Init(b + suffix) == b + Init(suffix);
      CommonSuffix(a, b, Init(suffix));
    }
  }

  lemma InsertionCostsOne(a: string, b: string, k: nat)
    requires InsertsAt(a, b, k)
    ensures Distance(a, b) <= 1
  {
    var head := a[..k];
    assert a == head + a[k..] && b == (head + [b[k]]) + a[k..];
    assert Init(head + [b[k]]) == head;
    ZeroIffEqual(head, head);
    OneMoreCharacter(head, head + [b[k]]);
    CommonSuffix(head, head + [b[k]], a[k..]);
  }

  lemma SubstitutionCostsOne(a: string, b: string, k: nat)
    requires SubstitutesAt(a, b, k)
    ensures Distance(a, b) <= 1
  {
    var head, before, after := a[..k], a[..k] + [a[k]], a[..k] + [b[k]];
    assert a == before + a[k + 1..] && b == after + a[k + 1..];
    assert Init(before) == head == Init(after);
    ZeroIffEqual(head, head);
    CommonSuffix(before, after, a[k + 1..]);
  }

  lemma SingleEditCostsOne(a: string, b: string)
    requires SingleEdit(a, b)
    ensures Distance(a, b) <= 1
  {
    var k: nat :| EditsAt(a, b, k);
    if InsertsAt(a, b, k) {
      InsertionCostsOne(a, b, k);
    } else if InsertsAt(b, a, k) {
      InsertionCostsOne(b, a, k);
      Symmetric(a, b);
    } else {
      SubstitutionCostsOne(a, b, k);
    }
  }

  lemma {:induction false} NoPathIsShorter(path: seq<string>, left: string, right: string)
    requires IsEditPath(path, left, right)
    ensures Distance(left, right) <= |path| - 1
    decreases |path|
  {
    if |path| == 1 {
      ZeroIffEqual(left, right);
    } else {
      var next := path[1];
      assert SingleEdit(path[0], path[1]);
      assert IsEditPath(path[1..], next, right) by {
        forall i | 0 <= i < |path[1..]| - 1 ensures SingleEdit(path[1..][i], path[1..][i + 1]) {
          assert SingleEdit(path[i + 1], path[i + 2]);
        }
      }
      NoPathIsShorter(path[1..], next, right);
      SingleEditCostsOne(left, next);
      Triangle(left, next, right);
    }
  }

  // ---- A path of that length exists ----

  lemma EditUnderSuffix(a: string, b: string, c: char)
    requires SingleEdit(a, b)
    ensures SingleEdit(a + [c], b + [c])
  {
    var k: nat :| EditsAt(a, b, k);
    assert EditsAt(a + [c], b + [c], k) by {
      if InsertsAt(a, b, k) {
        assert b + [c] == (a + [c])[..k] + [b[k]] + (a + [c])[k..];
      } else if InsertsAt(b, a, k) {
        assert a + [c] == (b + [c])[..k] + [a[k]] + (b + [c])[k..];
      }
    }
  }

  lemma SuffixedPath(path: seq<string>, left: string, right: string, c: char) returns (longer: seq<string>)
    requires IsEditPath(path, left, right)
    ensures IsEditPath(longer, left + [c], right + [c]) && |longer| == |path|
  {
    longer := seq(|path|, i requires 0 <= i < |path| => path[i] + [c]);
    forall i | 0 <= i < |longer| - 1 ensures SingleEdit(longer[i], longer[i + 1]) {
      EditUnderSuffix(path[i], path[i + 1], c);
    }
  }

  lemma ExtendPath(path: seq<string>, left: string, middle: string, right: string) returns (longer: seq<string>)
    requires IsEditPath(path, left, middle) && SingleEdit(middle, right)
    ensures IsEditPath(longer, left, right) && |longer| == |path| + 1
  {
    longer := path + [right];
  }

  /** The insertion or deletion of the last character of `s`. */
  lemma LastCharacterEdit(s: string)
    requires s != ""
    ensures SingleEdit(Init(s), s) && SingleEdit(s, Init(s))
  {
    assert s == Init(s)[..|s| - 1] + [s[|s| - 1]] + Init(s)[|s| - 1..];
    assert InsertsAt(Init(s), s, |s| - 1);
    assert EditsAt(Init(s), s, |s| - 1) && EditsAt(s, Init(s), |s| - 1);
  }

  /** One more edit in front of a path. */
  lemma PrependStep(left: string, path: seq<string>, next: string, right: string) returns (longer: seq<string>)
    requires IsEditPath(path, next, right) && SingleEdit(left, next)
    ensures IsEditPath(longer, left, right) && |longer| == |path| + 1
  {
    longer := [left] + path;
    forall i | 0 <= i < |longer| - 1 ensures SingleEdit(longer[i], longer[i + 1]) {
      assert i > 0 ==> SingleEdit(path[i - 1], path[i]);
    }
  }

  /** The last step when both last characters are used: nothing, or one substitution. */
  lemma ReplaceLast(path: seq<string>, left: string, right: string) returns (longer: seq<string>)
    requires left != "" && right != "" && IsEditPath(path, left, Init(right) + [Last(left)])
    ensures IsEditPath(longer, left, right) && |longer| == |path| + Mismatch(Last(left), Last(right))
  {
    var middle := Init(right) + [Last(left)];
    if Last(left) == Last(right) {
      assert middle == right;
      longer := path;
    } else {
      assert right == middle[|right| - 1 := right[|right| - 1]];
      assert EditsAt(middle, right, |right| - 1);
      longer := ExtendPath(path, left, middle, right);
    }
  }

  lemma {:induction false} PathOfThatLength(left: string, right: string) returns (path: seq<string>)
    ensures IsEditPath(path, left, right) && |path| == Distance(left, right) + 1
    decreases |left| + |right|
  {
    if left == "" && right == "" {
      path := [left];
    } else if right != "" && Distance(left, right) == Distance(left, Init(right)) + 1 {
      path := PathOfThatLength(left, Init(right));
      LastCharacterEdit(right);
      path := ExtendPath(path, left, Init(right), right);
    } else if left != "" && Distance(left, right) == Distance(Init(left), right) + 1 {
      path := PathOfThatLength(Init(left), right);
      LastCharacterEdit(left);
      path := PrependStep(left, path, Init(left), right);
    } else {
      path := PathOfThatLength(Init(left), Init(right));
      path := SuffixedPath(path, Init(left), Init(right), Last(left));
      assert Init(left) + [Last(left)] == left;
      path := ReplaceLast(path, left, right);
    }
  }

  lemma DistanceIsLeast(left: string, right: string)
    ensures IsLeastEditCount(left, right, Distance(left, right))
  {
    var path := PathOfThatLength(left, right);
    forall other | IsEditPath(other, left, right) ensures Distance(left, right) + 1 <= |other| {
      NoPathIsShorter(other, left, right);
    }
  }

  /** The least count is unique, so it is what `Compute` returns on every input. */
  lemma LeastCountIsDistance(left: string, right: string, d: nat)
    ensures IsLeastEditCount(left, right, d) <==> d == Distance(left, right)
  {
    DistanceIsLeast(left, right);
  }
}
