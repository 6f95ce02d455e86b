/**
 * A Python `list` object that several owners can share: the organizer's
 * `conflicts` and `errors` lists are cleared and appended to in place, and
 * the result of `execute` holds references to the very same objects.
 */
module Lists {

  class List<T> {
    var elems: seq<T>

    /** `[]`: a new, empty list. */
    constructor()
      ensures elems == []
    {
      elems := [];
    }

    /** `list.append(x)`. */
    method Append(x: T)
      modifies this
      ensures elems == old(elems) + [x]
    {
      elems := elems + [x];
    }

    /** `list.clear()`. */
    method Clear()
      modifies this
      ensures elems == []
    {
      elems := [];
    }
  }
}
