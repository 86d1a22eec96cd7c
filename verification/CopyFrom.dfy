/** The sqlc row iterators (one per table, all alike) and the driver loop that drains one. */
module CopyFrom {

  class RowIterator<T> {
    var rows: seq<T>
    var skippedFirstNextCall: bool

    constructor (args: seq<T>)
      ensures rows == args && !skippedFirstNextCall
    {
      rows, skippedFirstNextCall := args, false;
    }

    /** The rows that Next has yet to announce. */
    ghost function Pending(): seq<T>
      reads this
    {
      if skippedFirstNextCall && rows != [] then rows[1..] else rows
    }

    method Next() returns (more: bool)
      modifies this
      ensures more <==> old(Pending()) != []
      ensures more ==> rows != [] && [rows[0]] + Pending() == old(Pending())
      ensures !more ==> rows == [] && Pending() == []
    {
      if |rows| == 0 {
        return false;
      }
      if !skippedFirstNextCall {
        skippedFirstNextCall := true;
        return true;
      }
      rows := rows[1..];
      return |rows| > 0;
    }

    /** Only called after Next has answered true. */
    method Values() returns (row: T)
      requires rows != []
      ensures row == rows[0]
    {
      row := rows[0];
    }
  }

  /** What COPY receives from the iterator: every row once, in order. */
  method Drain<T>(args: seq<T>) returns (received: seq<T>)
    ensures received == args
  {
    var source := new RowIterator<T>(args);
    received := [];
    var more := source.Next();
    while more
      invariant fresh(source)
      invariant more ==> source.rows != [] && received + [source.rows[0]] + source.Pending() == args
      invariant !more ==> received == args
      decreases more, |source.Pending()|
    {
      var row := source.Values();
      received := received + [row];
      more := source.Next();
    }
  }
}
