/** Joining URL path segments as Go's `path.Join` does: empty segments are
    skipped and each boundary carries exactly one slash. `path.Clean`'s
    handling of `.` and `..` segments and of repeated slashes inside a
    segment is not part of this model, and neither is its removal of a
    trailing slash from the result (`path.Join("a", "b/")` is `a/b`). */
module Paths {
  import opened Text

  /** `s` without the slashes at its end. */
  function TrimTrailingSlashes(s: string): (r: string)
    ensures r == [] || r[|r| - 1] != '/'
    ensures HasPrefix(s, r)
    ensures forall k :: |r| <= k < |s| ==> s[k] == '/'
  {
    if |s| > 0 && s[|s| - 1] == '/' then TrimTrailingSlashes(s[..|s| - 1]) else s
  }

  /** `s` without the slashes at its start. */
  function TrimLeadingSlashes(s: string): (r: string)
    ensures r == [] || r[0] != '/'
    ensures HasSuffix(s, r)
    ensures forall k :: 0 <= k < |s| - |r| ==> s[k] == '/'
  {
    if |s| > 0 && s[0] == '/' then TrimLeadingSlashes(s[1..]) else s
  }

  /** Appends one path segment: an empty side contributes nothing, otherwise
      the two sides meet at a single slash. */
  function JoinSegment(left: string, right: string): string {
    if right == "" then left
    else if left == "" then right
    else TrimTrailingSlashes(left) + "/" + TrimLeadingSlashes(right)
  }

  /** `path.Join(elems...)`: the segments appended left to right. As in Go,
      the result is empty exactly when every segment is. */
  function PathJoin(elems: seq<string>): (r: string)
    ensures r == "" <==> forall k :: 0 <= k < |elems| ==> elems[k] == ""
  {
    if elems == [] then ""
    else
      var init := elems[..|elems| - 1];
      assert forall k :: 0 <= k < |init| ==> init[k] == elems[k];
      JoinSegment(PathJoin(init), elems[|elems| - 1])
  }

  /** A segment with no slash at either end, as a deployment name normally is. */
  predicate IsBareSegment(s: string) {
    s != "" && s[0] != '/' && s[|s| - 1] != '/'
  }

  /** `s` starts with exactly one slash followed by something else. */
  predicate StartsWithOneSlash(s: string) {
    |s| >= 2 && s[0] == '/' && s[1] != '/'
  }

  /** `s` ends with exactly one slash preceded by something else. */
  predicate EndsWithOneSlash(s: string) {
    |s| >= 2 && s[|s| - 1] == '/' && s[|s| - 2] != '/'
  }

  /** Joining four segments is appending them one at a time. */
  lemma PathJoinOfFour(a: string, b: string, c: string, d: string)
    ensures PathJoin([a, b, c, d]) == JoinSegment(JoinSegment(JoinSegment(a, b), c), d)
  {
    assert [a, b, c, d][..3] == [a, b, c];
    assert [a, b, c][..2] == [a, b];
    assert [a, b][..1] == [a];
    assert [a][..0] == [];
    assert PathJoin([a]) == a;
    assert PathJoin([a, b]) == JoinSegment(a, b);
    assert PathJoin([a, b, c]) == JoinSegment(JoinSegment(a, b), c);
  }

  /** A segment starting with exactly one slash meets the path at that slash,
      the path's trailing slashes dropped. */
  lemma JoinSlashed(left: string, right: string)
    requires StartsWithOneSlash(right)
    ensures JoinSegment(left, right) == TrimTrailingSlashes(left) + right
  {
    if left == "" {
      assert TrimTrailingSlashes(left) == left;
      assert left + right == right;
    } else {
      assert TrimLeadingSlashes(right[1..]) == right[1..];
      assert right == "/" + right[1..];
    }
  }

  /** A path joined with a segment starting with exactly one slash ends in
      that segment. */
  lemma JoinSlashedSuffix(left: string, right: string)
    requires StartsWithOneSlash(right)
    ensures HasSuffix(JoinSegment(left, right), right)
  {
    JoinSlashed(left, right);
    var t := TrimTrailingSlashes(left) + right;
    assert t[|t| - |right|..] == right;
  }

  /** A path ending in exactly one slash loses just that slash. */
  lemma TrimOneTrailingSlash(prefix: string, s: string)
    requires EndsWithOneSlash(s)
    ensures TrimTrailingSlashes(prefix + s) == prefix + s[..|s| - 1]
    ensures prefix + s[..|s| - 1] + "/" == prefix + s
  {
    var t := prefix + s;
    assert t[..|t| - 1] == prefix + s[..|s| - 1];
    assert s[..|s| - 1] + "/" == s;
  }

  /** A bare segment appended to a path ending in exactly one slash is
      appended as it is. */
  lemma JoinAfterSlash(prefix: string, s: string, segment: string)
    requires EndsWithOneSlash(s) && IsBareSegment(segment)
    ensures JoinSegment(prefix + s, segment) == prefix + s + segment
  {
    TrimOneTrailingSlash(prefix, s);
    TrimOfBare(segment);
  }

  lemma TrimOfBare(s: string)
    requires IsBareSegment(s)
    ensures TrimLeadingSlashes(s) == s && TrimTrailingSlashes(s) == s
  {
  }

  /** A segment starting with exactly one slash, appended to a path that does
      not end in a slash, is appended as it is. */
  lemma JoinAfterBare(left: string, right: string)
    requires left != "" && left[|left| - 1] != '/'
    requires StartsWithOneSlash(right)
    ensures JoinSegment(left, right) == left + right
  {
    JoinSlashed(left, right);
    assert TrimTrailingSlashes(left) == left;
  }

  /** Joining a path, a segment with one slash at each end, a bare segment
      and a segment starting with one slash is plain concatenation once the
      path's trailing slashes are dropped. */
  lemma JoinThrough(a: string, b: string, c: string, d: string)
    requires StartsWithOneSlash(b) && EndsWithOneSlash(b)
    requires IsBareSegment(c) && StartsWithOneSlash(d)
    ensures JoinSegment(JoinSegment(JoinSegment(a, b), c), d) == TrimTrailingSlashes(a) + b + c + d
  {
    var t := TrimTrailingSlashes(a);
    JoinSlashed(a, b);
    JoinAfterSlash(t, b, c);
    var s3 := t + b + c;
    assert s3[|s3| - 1] == c[|c| - 1];
    JoinAfterBare(s3, d);
  }
}
