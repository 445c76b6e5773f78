/** The character error rate's edit distance: a row at a time, with the shorter text in the rows. */
module EditDistance {
  import opened Basics

  /** Turning the first text into the second, from the end: characters inserted, deleted or replaced. */
  function Distance(a: string, b: string): nat
    decreases |a| + |b|
  {
    if a == [] then |b|
    else if b == [] then |a|
    else
      var a', b' := a[..|a| - 1], b[..|b| - 1];
      var replaced: nat := Distance(a', b') + if a[|a| - 1] == b[|b| - 1] then 0 else 1;
      Least(Distance(a, b') + 1, Distance(a', b) + 1, replaced)
  }

  function Least(x: nat, y: nat, z: nat): nat {
    if x <= y && x <= z then x else if y <= z then y else z
  }

  // -------------------------------------------------------------- what it means

  datatype Edit = Keep | Replace(c: char) | Insert(c: char) | Delete

  /** The text a script of edits makes of `a`; the last edit is about the last character. */
  function Apply(script: seq<Edit>, a: string): Option<string> {
    if script == [] then (if a == [] then Some([]) else None)
    else
      var init, n := script[..|script| - 1], |a| - 1;
      match script[|script| - 1]
      case Insert(c) => AndThen(Apply(init, a), [c])
      case Keep => if a == [] then None else AndThen(Apply(init, a[..n]), [a[n]])
      case Replace(c) => if a == [] then None else AndThen(Apply(init, a[..n]), [c])
      case Delete => if a == [] then None else Apply(init, a[..n])
  }

  function AndThen(before: Option<string>, tail: string): Option<string> {
    if before.None? then None else Some(before.value + tail)
  }

  function Cost(script: seq<Edit>): nat {
    if script == [] then 0
    else Cost(script[..|script| - 1]) + if script[|script| - 1].Keep? then 0 else 1
  }

  /** One more character costs at most one more edit. */
  lemma OneMore(a: string, b: string)
    ensures a != [] ==> Distance(a, b) <= Distance(a[..|a| - 1], b) + 1
    ensures b != [] ==> Distance(a, b) <= Distance(a, b[..|b| - 1]) + 1
  {
    if a != [] && b == [] { LengthOf(a[..|a| - 1]); }
    if b != [] && a == [] { LengthOf(b[..|b| - 1]); }
  }

  lemma LengthOf(a: string)
    ensures Distance(a, []) == |a| && Distance([], a) == |a|
  {
  }

  /** No script is cheaper than the distance. */
  lemma {:induction false} NoScriptIsCheaper(script: seq<Edit>, a: string, b: string)
    requires Apply(script, a) == Some(b)
    ensures Distance(a, b) <= Cost(script)
  {
    if script != [] {
      var init, n := script[..|script| - 1], |a| - 1;
      OneMore(a, b);
      match script[|script| - 1]
      case Insert(c) =>
        assert b[..|b| - 1] == Apply(init, a).value;
        NoScriptIsCheaper(init, a, b[..|b| - 1]);
      case Delete => NoScriptIsCheaper(init, a[..n], b);
      case _ =>
        assert b[..|b| - 1] == Apply(init, a[..n]).value;
        NoScriptIsCheaper(init, a[..n], b[..|b| - 1]);
    }
  }

  /** Some script costs exactly the distance. */
  lemma {:induction false} SomeScriptIsBest(a: string, b: string) returns (script: seq<Edit>)
    ensures Apply(script, a) == Some(b) && Cost(script) == Distance(a, b)
    decreases |a| + |b|
  {
    if a == [] && b == [] {
      script := [];
    } else if a == [] || (b != [] && Distance(a, b) == Distance(a, b[..|b| - 1]) + 1) {
      var c := b[|b| - 1];
      script := SomeScriptIsBest(a, b[..|b| - 1]);
      LengthOf(b[..|b| - 1]);
      assert b == b[..|b| - 1] + [c] && (script + [Insert(c)])[..|script|] == script;
      script := script + [Insert(c)];
    } else if b == [] || Distance(a, b) == Distance(a[..|a| - 1], b) + 1 {
      script := SomeScriptIsBest(a[..|a| - 1], b);
      LengthOf(a[..|a| - 1]);
      assert (script + [Delete])[..|script|] == script;
      script := script + [Delete];
    } else {
      var last := if a[|a| - 1] == b[|b| - 1] then Keep else Replace(b[|b| - 1]);
      script := SomeScriptIsBest(a[..|a| - 1], b[..|b| - 1]);
      assert b == b[..|b| - 1] + [b[|b| - 1]] && (script + [last])[..|script|] == script;
      script := script + [last];
    }
  }

  /** The two texts may be exchanged. */
  lemma {:induction false} IsSymmetric(a: string, b: string)
    ensures Distance(a, b) == Distance(b, a)
    decreases |a| + |b|
  {
    if a != [] && b != [] {
      IsSymmetric(a[..|a| - 1], b);
      IsSymmetric(a, b[..|b| - 1]);
      IsSymmetric(a[..|a| - 1], b[..|b| - 1]);
    }
  }

  /** The distance is nothing exactly between equal texts. */
  lemma {:induction false} IsZeroExactlyWhenEqual(a: string, b: string)
    ensures Distance(a, b) == 0 <==> a == b
    decreases |a| + |b|
  {
    if a != [] && b != [] {
      IsZeroExactlyWhenEqual(a[..|a| - 1], b[..|b| - 1]);
      assert a == a[..|a| - 1] + [a[|a| - 1]] && b == b[..|b| - 1] + [b[|b| - 1]];
    }
  }

  // ------------------------------------------------------------------ the loops

  /** One row of distances. */
  ghost predicate IsRow(row: seq<nat>, a: string, b: string, width: nat) {
    width <= |b| && |row| == width + 1 && forall j :: 0 <= j <= width ==> row[j] == Distance(a, b[..j])
  }

  lemma NextCell(a: string, c: char, b: string, j: nat)
    requires j < |b|
    ensures var x: nat := Distance(a, b[..j]) + if c != b[j] then 1 else 0;
            Distance(a + [c], b[..j + 1]) == Least(Distance(a + [c], b[..j]) + 1, Distance(a, b[..j + 1]) + 1, x)
  {
    assert (a + [c])[..|a|] == a && b[..j + 1][..j] == b[..j];
  }

  /** The inner loop: the next row from the one before it. */
  method NextRow(previous: seq<nat>, a: string, c: char, b: string) returns (current: seq<nat>)
    requires IsRow(previous, a, b, |b|)
    ensures IsRow(current, a + [c], b, |b|)
  {
    hide Distance, Least;
    current := [|a| + 1];
    LengthOf(a + [c]);
    assert b[..0] == [];
    var column := 1;
    while column <= |b|
      invariant 1 <= column <= |b| + 1 && IsRow(current, a + [c], b, column - 1)
    {
      NextCell(a, c, b, column - 1);
      var replaced: nat := previous[column - 1] + if c != b[column - 1] then 1 else 0;
      current := current + [Least(current[column - 1] + 1, previous[column] + 1, replaced)];
      column := column + 1;
    }
  }

  /** `edit_distance` */
  method EditDistance(reference: string, hypothesis: string) returns (distance: nat)
    ensures distance == Distance(reference, hypothesis)
  {
    hide Distance;
    var long, short := reference, hypothesis;
    if |reference| < |hypothesis| {
      long, short := hypothesis, reference;
      IsSymmetric(reference, hypothesis);
    }
    var previous: seq<nat> := seq(|short| + 1, i requires 0 <= i <= |short| => i);
    forall j | 0 <= j <= |short| ensures Distance([], short[..j]) == j { LengthOf(short[..j]); }
    assert long[..0] == [];
    var row := 0;
    while row < |long|
      invariant 0 <= row <= |long| && IsRow(previous, long[..row], short, |short|)
    {
      previous := NextRow(previous, long[..row], long[row], short);
      assert long[..row] + [long[row]] == long[..row + 1];
      row := row + 1;
    }
    assert long[..|long|] == long && short[..|short|] == short;
    distance := previous[|previous| - 1];
  }
}
