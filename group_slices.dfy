/**
 * The group names of a handler as Go keeps them: a []string, that is a
 * window onto a backing array that several slices may share. WithGroup
 * extends its parent's names with `append(h.groups, name)`, which writes
 * into the parent's backing array whenever that array has room, so two
 * children of one parent can share, and overwrite, the same cell.
 */
module GroupSlices {

  /** A []string: the first `len` cells of `store`; cap is `store.Length`. */
  datatype Slice = Slice(store: array<string>, len: nat)

  /**
   * The capacity append allocates when a slice of length n is full: double
   * it while it is small, grow by a quarter plus 192 beyond (the rounding
   * to the allocator's size classes is left out; it changes nothing for the
   * power-of-two capacities reached from an empty slice below 256).
   */
  function NewCap(n: nat): (c: nat)
    ensures c > n
  {
    if n == 0 then 1 else if n < 256 then 2 * n else n + (n + 3 * 256) / 4
  }

  /**
   * append(s, x): with room left, x is written into the shared backing
   * array at position len and the result shares that array; without room,
   * a new array holds a copy of the names and x, and nothing is shared.
   */
  method Append(s: Slice, x: string) returns (t: Slice)
    requires s.len <= s.store.Length
    modifies s.store
    ensures t.len == s.len + 1 <= t.store.Length
    ensures t.store[..t.len] == old(s.store[..s.len]) + [x]
    ensures s.len < s.store.Length ==> t.store == s.store && s.store[s.len] == x
    ensures s.len < s.store.Length ==> forall i :: 0 <= i < s.store.Length && i != s.len ==> s.store[i] == old(s.store[i])
    ensures s.len == s.store.Length ==> fresh(t.store) && t.store.Length == NewCap(s.len) && unchanged(s.store)
  {
    if s.len < s.store.Length {
      s.store[s.len] := x;
      t := Slice(s.store, s.len + 1);
    } else {
      var grown := new string[NewCap(s.len)];
      forall i | 0 <= i < s.len {
        grown[i] := s.store[i];
      }
      grown[s.len] := x;
      t := Slice(grown, s.len + 1);
    }
  }

  /**
   * WithGroup("a").WithGroup("b").WithGroup("c") on a new handler leaves
   * three names in an array of four. Two children of that handler,
   * WithGroup("x") and WithGroup("y"), both write the fourth cell: after
   * both are made, the "x" child's names read a, b, c, y, and those are the
   * names its hook is given.
   */
  method SiblingGroups() returns (xNames: seq<string>, yNames: seq<string>)
    ensures xNames == ["a", "b", "c", "y"]
    ensures yNames == ["a", "b", "c", "y"]
  {
    var none := new string[0];
    var a := Append(Slice(none, 0), "a");
    var ab := Append(a, "b");
    var abc := Append(ab, "c");
    assert abc.len == 3 && abc.store.Length == 4;
    var x := Append(abc, "x");
    var y := Append(abc, "y");
    xNames := x.store[..x.len];
    yNames := y.store[..y.len];
  }
}
