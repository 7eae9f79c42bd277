/**
 * Go slices of strings with their backing arrays, just enough to follow the
 * `append(c.pathElements, name)` calls of `ChildConfig` and of the getters.
 * A slice is a window (`len` of `cap` elements) on a shared backing array;
 * `append` writes in place when there is spare capacity and allocates a
 * larger array otherwise (capacity doubles, as Go's runtime does for small
 * slices of strings: 1, 2, 4, 8, ...).
 */
module GoSlices {

  /** A slice header: which backing array, and its length and capacity. */
  datatype Slice = Slice(backing: nat, len: nat, cap: nat)

  /** The backing arrays allocated so far, each as long as its capacity. */
  type Heap = seq<seq<string>>

  predicate Valid(h: Heap, s: Slice) {
    s.backing < |h| && s.len <= s.cap && s.cap == |h[s.backing]|
  }

  /** The strings a slice shows. */
  function Elements(h: Heap, s: Slice): seq<string>
    requires Valid(h, s)
  {
    h[s.backing][..s.len]
  }

  /** `h2` only adds arrays and keeps every array's length. */
  predicate Extends(h: Heap, h2: Heap) {
    |h| <= |h2| && forall b :: 0 <= b < |h| ==> |h2[b]| == |h[b]|
  }

  /** A composite literal such as `[]string{name}`: a new array, full. */
  function Literal(h: Heap, xs: seq<string>): (r: (Heap, Slice))
    ensures Extends(h, r.0) && Valid(r.0, r.1) && Elements(r.0, r.1) == xs
  {
    (h + [xs], Slice(|h|, |xs|, |xs|))
  }

  function GrownCap(cap: nat): nat {
    if cap == 0 then 1 else 2 * cap
  }

  /**
   * The built-in `append(s, x)`, as Go runs it: with spare capacity it writes
   * `x` in place, in slot `len` of the slice's own array, and changes nothing
   * else; when full it leaves every existing array alone and adds a new one.
   */
  function Append(h: Heap, s: Slice, x: string): (r: (Heap, Slice))
    requires Valid(h, s)
    ensures Extends(h, r.0) && Valid(r.0, r.1)
    ensures Elements(r.0, r.1) == Elements(h, s) + [x]
    ensures s.len < s.cap ==> |r.0| == |h| && r.1.backing == s.backing
    ensures s.len == s.cap ==> |r.0| == |h| + 1 && r.1.backing == |h|
    ensures forall b :: 0 <= b < |h| && b != s.backing ==> r.0[b] == h[b]
    ensures s.len == s.cap ==> r.0[s.backing] == h[s.backing]
    ensures forall k :: 0 <= k < s.cap && k != s.len ==> r.0[s.backing][k] == h[s.backing][k]
  {
    if s.len < s.cap then
      (h[s.backing := h[s.backing][s.len := x]], Slice(s.backing, s.len + 1, s.cap))
    else
      var c := GrownCap(s.cap);
      var grown := Elements(h, s) + [x] + seq(c - s.len - 1, _ => "");
      (h + [grown], Slice(|h|, s.len + 1, c))
  }

  /** Append that always copies into a new array (copy-on-derive). */
  function AppendCopy(h: Heap, s: Slice, x: string): (r: (Heap, Slice))
    requires Valid(h, s)
    ensures Extends(h, r.0) && Valid(r.0, r.1)
    ensures Elements(r.0, r.1) == Elements(h, s) + [x]
  {
    var xs := Elements(h, s) + [x];
    (h + [xs], Slice(|h|, |xs|, |xs|))
  }

  /** Copying append never changes what another slice shows. */
  lemma AppendCopyPreservesOthers(h: Heap, s: Slice, x: string, t: Slice)
    requires Valid(h, s) && Valid(h, t)
    ensures Valid(AppendCopy(h, s, x).0, t)
    ensures Elements(AppendCopy(h, s, x).0, t) == Elements(h, t)
  {
  }

  /**
   * The prefixes of `NewConfig("app", l).ChildConfig("one").ChildConfig("two")`
   * and of a child "x" of that scope, as Go builds them; then the lookup path
   * of `two.GetString("f")`, which is built by appending "f" in place.
   * Afterwards the child's prefix reads "app", "one", "two", "f": deriving a
   * scope or reading a field on the parent rewrites the child's last segment.
   */
  lemma ParentLookupOverwritesChildPrefix()
    ensures
      var (h0, app) := Literal([], ["app"]);
      var (h1, one) := Append(h0, app, "one");
      var (h2, two) := Append(h1, one, "two");
      var (h3, x) := Append(h2, two, "x");
      var (h4, lookup) := Append(h3, two, "f");
      && Elements(h3, x) == ["app", "one", "two", "x"]
      && Valid(h4, x)
      && Elements(h4, x) == ["app", "one", "two", "f"]
  {
    var (h0, app) := Literal([], ["app"]);
    var (h1, one) := Append(h0, app, "one");
    assert one == Slice(1, 2, 2);
    var (h2, two) := Append(h1, one, "two");
    assert two == Slice(2, 3, 4);
    var (h3, x) := Append(h2, two, "x");
    assert x == Slice(2, 4, 4);
    var (h4, lookup) := Append(h3, two, "f");
    assert h4[2] == h3[2][3 := "f"];
  }
}
