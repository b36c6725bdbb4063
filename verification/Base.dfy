/** Small types shared by all the other modules. */
module Base {

  datatype Option<+T> = None | Some(value: T)

  /** The index of one of the two sockets of a connection, or of one of the two budgets of a client. */
  type Side = i: int | 0 <= i < 2

  function Other(i: Side): Side {
    1 - i
  }

  /** The two-element member arrays of the program (`x_pair[2]`, `avail_bytes[2]`). */
  datatype Pair<T> = Pair(first: T, second: T) {
    function At(i: Side): T {
      if i == 0 then first else second
    }

    function With(i: Side, v: T): Pair<T> {
      if i == 0 then Pair(v, second) else Pair(first, v)
    }
  }

  function Last<T>(s: seq<T>): T
    requires s != []
  {
    s[|s| - 1]
  }

  function Front<T>(s: seq<T>): seq<T>
    requires s != []
  {
    s[..|s| - 1]
  }
}
