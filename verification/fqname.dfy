/**
 * Qualified names (`FqName` in ast.kt): an ordered list of name segments,
 * printed by joining the segments with ".".
 */
module FqNames {

  const Separator: char := '.'

  /** A dotted path such as `kotlin.collections.List`. */
  datatype FqName = FqName(names: seq<string>)

  /**
   * The segments joined with the separator between consecutive ones,
   * as Kotlin's `joinToString(".")` does: no separator before the first
   * segment or after the last, and the empty list prints as "".
   */
  function Join(names: seq<string>): (r: string)
    ensures |names| == 0 ==> r == ""
    ensures |names| >= 1 ==> |r| == TotalLength(names) + |names| - 1
    ensures |names| >= 1 ==> r[..|names[0]|] == names[0]
  {
    if |names| == 0 then ""
    else if |names| == 1 then names[0]
    else names[0] + [Separator] + Join(names[1..])
  }

  /** The sum of the segment lengths. */
  function TotalLength(names: seq<string>): nat
  {
    if |names| == 0 then 0 else |names[0]| + TotalLength(names[1..])
  }

  /** `FqName.toString()`. */
  function ToString(q: FqName): (r: string)
    ensures |q.names| == 0 ==> r == ""
    ensures |q.names| >= 1 && SeparatorFree(q.names) ==> Split(r) == q.names
  {
    var r := Join(q.names);
    if |q.names| >= 1 && SeparatorFree(q.names) then SplitJoin(q.names); r else r
  }

  /**
   * The inverse of `Join`: the maximal separator-free pieces of `s`,
   * in order. Not part of the source; it is the reference used to show that
   * printing loses nothing when no segment contains a separator.
   */
  function Split(s: string): (r: seq<string>)
    ensures |r| >= 1
    ensures forall i :: 0 <= i < |r| ==> Separator !in r[i]
  {
    if |s| == 0 then [""]
    else
      var rest := Split(s[1..]);
      if s[0] == Separator then [""] + rest
      else [[s[0]] + rest[0]] + rest[1..]
  }

  /** A segment list that prints unambiguously. */
  predicate SeparatorFree(names: seq<string>)
  {
    forall i :: 0 <= i < |names| ==> Separator !in names[i]
  }

  /** A separator-free prefix merges into the first piece of the split of what follows it. */
  lemma {:induction false} SplitPrefix(a: string, t: string)
    requires Separator !in a
    ensures Split(a + t) == [a + Split(t)[0]] + Split(t)[1..]
    decreases |a|
  {
    if |a| == 0 {
      assert a + t == t;
      assert a + Split(t)[0] == Split(t)[0];
      assert Split(t) == [Split(t)[0]] + Split(t)[1..];
    } else {
      assert (a + t)[1..] == a[1..] + t;
      SplitPrefix(a[1..], t);
      assert [a[0]] + (a[1..] + Split(t)[0]) == a + Split(t)[0];
    }
  }

  /** Printing a non-empty, separator-free name and splitting it gives the segments back. */
  lemma {:induction false} SplitJoin(names: seq<string>)
    requires |names| >= 1 && SeparatorFree(names)
    ensures Split(Join(names)) == names
    decreases |names|
  {
    if |names| == 1 {
      SplitPrefix(names[0], "");
      assert names[0] + "" == names[0];
    } else {
      var tail := Join(names[1..]);
      SplitJoin(names[1..]);
      SplitPrefix(names[0], [Separator] + tail);
      assert Split([Separator] + tail) == [""] + Split(tail) by {
        assert ([Separator] + tail)[1..] == tail;
      }
      assert names[0] + ([Separator] + tail) == names[0] + [Separator] + tail;
      assert names[0] + "" == names[0];
      assert names == [names[0]] + names[1..];
    }
  }

  /** Every string is the printed form of its own split. */
  lemma {:induction false} JoinSplit(s: string)
    ensures Join(Split(s)) == s
    decreases |s|
  {
    if |s| > 0 {
      var rest := Split(s[1..]);
      JoinSplit(s[1..]);
      if s[0] == Separator {
        assert ([""] + rest)[1..] == rest;
        assert s == [s[0]] + s[1..];
      } else {
        var parts := [[s[0]] + rest[0]] + rest[1..];
        assert parts[1..] == rest[1..];
        if |rest| > 1 {
          assert Join(rest) == rest[0] + [Separator] + Join(rest[1..]);
        }
        assert s == [s[0]] + s[1..];
      }
    }
  }

  /** Two separator-free names print the same exactly when they are equal. */
  lemma JoinInjective(a: seq<string>, b: seq<string>)
    requires |a| >= 1 && |b| >= 1 && SeparatorFree(a) && SeparatorFree(b)
    ensures Join(a) == Join(b) <==> a == b
  {
    if Join(a) == Join(b) {
      SplitJoin(a);
      SplitJoin(b);
    }
  }
}
