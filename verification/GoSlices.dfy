/** Go slices on the Dafny heap: a window into a shared backing array, with
    spare capacity behind it.  `append` writes in place when the capacity allows,
    so two slices over one array can see each other's writes. */
module GoSlices {

  /** The nil slice has no backing array.  `cap` counts from `off`. */
  datatype Slice<T> = Slice(arr: array?<T>, off: nat, len: nat, cap: nat) {

    ghost predicate Valid() {
      && len <= cap
      && (arr == null ==> cap == 0)
      && (arr != null ==> off + cap <= arr.Length)
    }

    /** The elements a reader of this slice sees. */
    function View(): (s: seq<T>)
      requires Valid()
      reads arr
      ensures |s| == len
    {
      if arr == null then [] else arr[off..off + len]
    }

    /** Cell `i` of this slice's array is one that appending `n` elements may write. */
    ghost predicate Spare(n: nat, i: int) {
      off + len <= i < off + len + n
    }
  }

  function Nil<T>(): (s: Slice<T>)
    ensures s.Valid() && s.View() == []
  {
    Slice(null, 0, 0, 0)
  }

  /** A whole array seen as a slice without spare capacity. */
  function Whole<T>(a: array<T>): (s: Slice<T>)
    reads a
    ensures s.Valid() && s.View() == a[..]
  {
    Slice(a, 0, a.Length, a.Length)
  }

  /** The built-in `append(s, more...)`.  `more` may overlap `s`; the copy behaves like a
      memmove.  When the capacity does not suffice, the runtime chooses a new capacity freely
      and the old array is left alone.  In place, only the spare cells right behind `s` change. */
  method Append<T(0)>(s: Slice<T>, more: Slice<T>) returns (r: Slice<T>)
    requires s.Valid() && more.Valid()
    modifies s.arr
    ensures r.Valid()
    ensures r.View() == old(s.View()) + old(more.View())
    ensures s.len + more.len <= s.cap ==> r == s.(len := s.len + more.len)
    ensures s.len + more.len > s.cap ==> r.arr != null && fresh(r.arr) && r.off == 0
    ensures s.arr != null ==>
              forall i :: 0 <= i < s.arr.Length && !(r.arr == s.arr && s.Spare(more.len, i)) ==>
                s.arr[i] == old(s.arr[i])
  {
    if s.len + more.len <= s.cap {
      r := s.(len := s.len + more.len);
      if more.len > 0 {
        forall i | 0 <= i < more.len {
          s.arr[s.off + s.len + i] := more.arr[more.off + i];
        }
      }
    } else {
      r := Grow(s.View(), more.View());
    }
  }

  /** A new array for `a` and `b`, with whatever capacity the runtime chooses. */
  method Grow<T(0)>(a: seq<T>, b: seq<T>) returns (r: Slice<T>)
    ensures r.Valid() && r.View() == a + b
    ensures r.arr != null && fresh(r.arr) && r.off == 0
  {
    var n := |a| + |b|;
    var capacity: int :| n <= capacity;
    var cells := new T[capacity];
    forall i | 0 <= i < n {
      cells[i] := (a + b)[i];
    }
    r := Slice(cells, 0, n, capacity);
  }

  /** `append(s, x)`. */
  method AppendOne<T(0)>(s: Slice<T>, x: T) returns (r: Slice<T>)
    requires s.Valid()
    modifies s.arr
    ensures r.Valid()
    ensures r.View() == old(s.View()) + [x]
    ensures s.len < s.cap ==> r == s.(len := s.len + 1)
    ensures s.len == s.cap ==> r.arr != null && fresh(r.arr) && r.off == 0
    ensures s.arr != null ==>
              forall i :: 0 <= i < s.arr.Length && !(r.arr == s.arr && i == s.off + s.len) ==>
                s.arr[i] == old(s.arr[i])
  {
    if s.len < s.cap {
      s.arr[s.off + s.len] := x;
      r := s.(len := s.len + 1);
    } else {
      r := Grow(s.View(), [x]);
    }
  }
}
