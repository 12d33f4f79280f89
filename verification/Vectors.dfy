/** A growable vector: a buffer with a fill pointer, reallocated only when the reserve is exceeded. */
module Vectors {
  class Vec<T(0)> {
    var buf: array<T>
    var len: nat

    ghost predicate Valid()
      reads this
    {
      len <= buf.Length
    }

    function Contents(): seq<T>
      requires Valid()
      reads this, buf
    {
      buf[..len]
    }

    constructor WithCapacity(capacity: nat)
      ensures Valid() && fresh(buf)
      ensures Contents() == [] && buf.Length == capacity
    {
      buf := new T[capacity];
      len := 0;
    }

    /** Makes room for `extra` more elements. Nothing moves while the reserve suffices. */
    method Reserve(extra: nat)
      requires Valid()
      modifies this
      ensures Valid() && len == old(len) && len + extra <= buf.Length
      ensures Contents() == old(Contents())
      ensures old(len) + extra <= old(buf.Length) ==> buf == old(buf)
      ensures buf == old(buf) || fresh(buf)
    {
      if len + extra > buf.Length {
        var bigger := new T[if 2 * buf.Length > len + extra then 2 * buf.Length else len + extra];
        for i := 0 to len
          invariant bigger[..i] == buf[..i]
          modifies bigger
        {
          bigger[i] := buf[i];
        }
        buf := bigger;
      }
    }

    method Push(x: T)
      requires Valid()
      modifies this, buf
      ensures Valid() && Contents() == old(Contents()) + [x]
      ensures old(len) < old(buf.Length) ==> buf == old(buf)
      ensures buf == old(buf) || fresh(buf)
    {
      Reserve(1);
      buf[len] := x;
      len := len + 1;
    }

    method ExtendFromSlice(s: seq<T>)
      requires Valid()
      modifies this, buf
      ensures Valid() && Contents() == old(Contents()) + s
      ensures old(len) + |s| <= old(buf.Length) ==> buf == old(buf)
      ensures buf == old(buf) || fresh(buf)
    {
      Reserve(|s|);
      ghost var prefix := buf[..len];
      for i := 0 to |s|
        invariant buf[..len + i] == prefix + s[..i]
        modifies buf
      {
        buf[len + i] := s[i];
      }
      len := len + |s|;
    }
  }
}
