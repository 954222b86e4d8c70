/**
 * The string operations of Python that the logger, the image saver and the
 * menu rely on: the `in` substring test, `str.join` and the two-argument
 * POSIX `os.path.join`.
 */
module Text {
  import opened Wrappers

  /** Python's `needle in haystack` on strings, computed by scanning. */
  predicate Contains(haystack: string, needle: string)
    decreases |haystack|
  {
    if |needle| <= |haystack| && haystack[..|needle|] == needle then true
    else if haystack == [] then false
    else Contains(haystack[1..], needle)
  }

  /** The same test stated by position: some slice of the haystack is the needle. */
  ghost predicate OccursAt(haystack: string, needle: string, i: int)
  {
    0 <= i && i + |needle| <= |haystack| && haystack[i..i + |needle|] == needle
  }

  /** The scan finds the needle exactly when it occurs at some position. */
  lemma {:induction false} ContainsIffOccurs(haystack: string, needle: string)
    ensures Contains(haystack, needle) <==> exists i :: OccursAt(haystack, needle, i)
    decreases |haystack|
  {
    if |needle| <= |haystack| && haystack[..|needle|] == needle {
      assert OccursAt(haystack, needle, 0);
    } else if haystack == [] {
    } else {
      var tail := haystack[1..];
      ContainsIffOccurs(tail, needle);
      if exists i :: OccursAt(tail, needle, i) {
        var i :| OccursAt(tail, needle, i);
        assert haystack[i + 1..i + 1 + |needle|] == tail[i..i + |needle|];
        assert OccursAt(haystack, needle, i + 1);
      }
      if exists i :: OccursAt(haystack, needle, i) {
        var i :| OccursAt(haystack, needle, i);
        assert tail[i - 1..i - 1 + |needle|] == haystack[i..i + |needle|];
        assert OccursAt(tail, needle, i - 1);
      }
    }
  }

  /** For a one-character needle the substring test is plain membership. */
  lemma {:induction false} ContainsChar(haystack: string, c: char)
    ensures Contains(haystack, [c]) <==> c in haystack
    decreases |haystack|
  {
    if haystack != [] {
      ContainsChar(haystack[1..], c);
      assert haystack == [haystack[0]] + haystack[1..];
    }
  }

  /** Python's `sep.join(parts)`. */
  function Join(sep: string, parts: seq<string>): string
    decreases |parts|
  {
    if parts == [] then ""
    else if |parts| == 1 then parts[0]
    else parts[0] + sep + Join(sep, parts[1..])
  }

  /** Joining one more part appends the separator and that part. */
  lemma {:induction false} JoinSnoc(sep: string, parts: seq<string>, last: string)
    requires parts != []
    ensures Join(sep, parts + [last]) == Join(sep, parts) + sep + last
    decreases |parts|
  {
    if |parts| == 1 {
      assert (parts + [last])[1..] == [last];
    } else {
      assert (parts + [last])[1..] == parts[1..] + [last];
      JoinSnoc(sep, parts[1..], last);
    }
  }

  /**
   * `os.path.join(dir, name)` on POSIX: an absolute `name` discards `dir`;
   * otherwise one `/` is inserted unless `dir` is empty or already ends in one.
   */
  function PathJoin(dir: string, name: string): (p: string)
    ensures |name| > 0 && name[0] == '/' ==> p == name
    ensures !(|name| > 0 && name[0] == '/') ==>
              |dir| + |name| <= |p| <= |dir| + 1 + |name| && p[..|dir|] == dir && p[|p| - |name|..] == name
    ensures !(|name| > 0 && name[0] == '/') && |p| == |dir| + 1 + |name| ==> p[|dir|] == '/'
    ensures !(|name| > 0 && name[0] == '/') ==>
              (|p| == |dir| + |name| <==> dir == [] || dir[|dir| - 1] == '/')
  {
    if |name| > 0 && name[0] == '/' then name
    else if dir == [] || dir[|dir| - 1] == '/' then dir + name
    else dir + "/" + name
  }

  /** Python truthiness of an optional string: present and not empty. */
  predicate Truthy(s: Option<string>)
  {
    s.Some? && s.value != ""
  }

  /**
   * Python's `s or fallback` for an optional string: a truthy value wins,
   * the result is one of the two, and it is falsy only when both are.
   */
  function OrElse(s: Option<string>, fallback: string): (r: string)
    ensures Truthy(s) ==> r == s.value
    ensures r == fallback || (s.Some? && r == s.value)
    ensures r == "" <==> !Truthy(s) && fallback == ""
  {
    if Truthy(s) then s.value else fallback
  }
}
