/** JavaScript's `||` on values that may be missing, and the fallback chains built from it. */
module JsOr {
  import opened Wrappers

  /** A string is truthy when present and non-empty. */
  predicate Truthy(o: Option<string>) {
    o.Some? && o.value != ""
  }

  /** A number is truthy when present and non-zero (coordinates here are integers, so NaN does not arise). */
  predicate NumberTruthy(o: Option<int>) {
    o.Some? && o.value != 0
  }

  /** `a || b` for a possibly missing string `a`. */
  function Or(a: Option<string>, b: string): string {
    if Truthy(a) then a.value else b
  }

  /** `a || b` for a possibly missing number `a`. */
  function OrNumber(a: Option<int>, b: int): int {
    if NumberTruthy(a) then a.value else b
  }

  /**
   * A field-priority table: the first candidate holding a non-empty string, or "" when none does.
   */
  function FirstNonEmpty(cs: seq<Option<string>>): (r: string)
    ensures r == "" <==> forall i :: 0 <= i < |cs| ==> !Truthy(cs[i])
    ensures r != "" ==> exists i :: 0 <= i < |cs| && cs[i] == Some(r) && forall j :: 0 <= j < i ==> !Truthy(cs[j])
    decreases |cs|
  {
    if cs == [] then ""
    else if Truthy(cs[0]) then cs[0].value
    else
      var r := FirstNonEmpty(cs[1..]);
      assert r != "" ==> exists i :: 0 <= i < |cs| && cs[i] == Some(r) && forall j :: 0 <= j < i ==> !Truthy(cs[j]) by {
        if r != "" {
          var i :| 0 <= i < |cs[1..]| && cs[1..][i] == Some(r) && forall j :: 0 <= j < i ==> !Truthy(cs[1..][j]);
          assert cs[i + 1] == Some(r);
          assert forall j :: 0 <= j < i + 1 ==> !Truthy(cs[j]) by {
            forall j | 0 <= j < i + 1 ensures !Truthy(cs[j]) {
              if j > 0 { assert cs[j] == cs[1..][j - 1]; }
            }
          }
        }
      }
      r
  }

  /** A numeric field-priority table: the first non-zero candidate, or 0. */
  function FirstNonZero(cs: seq<Option<int>>): (r: int)
    ensures r == 0 <==> forall i :: 0 <= i < |cs| ==> !NumberTruthy(cs[i])
    ensures r != 0 ==> exists i :: 0 <= i < |cs| && cs[i] == Some(r) && forall j :: 0 <= j < i ==> !NumberTruthy(cs[j])
    decreases |cs|
  {
    if cs == [] then 0
    else if NumberTruthy(cs[0]) then cs[0].value
    else
      var r := FirstNonZero(cs[1..]);
      assert r != 0 ==> exists i :: 0 <= i < |cs| && cs[i] == Some(r) && forall j :: 0 <= j < i ==> !NumberTruthy(cs[j]) by {
        if r != 0 {
          var i :| 0 <= i < |cs[1..]| && cs[1..][i] == Some(r) && forall j :: 0 <= j < i ==> !NumberTruthy(cs[1..][j]);
          assert cs[i + 1] == Some(r);
          assert forall j :: 0 <= j < i + 1 ==> !NumberTruthy(cs[j]) by {
            forall j | 0 <= j < i + 1 ensures !NumberTruthy(cs[j]) {
              if j > 0 { assert cs[j] == cs[1..][j - 1]; }
            }
          }
        }
      }
      r
  }

  /** Tables of one, two and three candidates are the `||` chains that end in ''. */
  lemma FirstNonEmptyOne(a: Option<string>)
    ensures FirstNonEmpty([a]) == Or(a, "")
  {
    assert [a][1..] == [];
  }

  lemma FirstNonEmptyTwo(a: Option<string>, b: Option<string>)
    ensures FirstNonEmpty([a, b]) == Or(a, Or(b, ""))
  {
    FirstNonEmptyOne(b);
    assert [a, b][1..] == [b];
  }

  lemma FirstNonEmptyThree(a: Option<string>, b: Option<string>, c: Option<string>)
    ensures FirstNonEmpty([a, b, c]) == Or(a, Or(b, Or(c, "")))
  {
    FirstNonEmptyTwo(b, c);
    assert [a, b, c][1..] == [b, c];
  }

  lemma FirstNonZeroChain(a: Option<int>, b: Option<int>)
    ensures FirstNonZero([a, b]) == OrNumber(a, OrNumber(b, 0))
  {
    assert [a, b][1..] == [b] && [b][1..] == [];
  }
}
