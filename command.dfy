/** The order book and the command-based execution layer with undo and redo history. */
module Commands {
  import opened Wrappers
  import opened Signals
  import opened Lists

  /** A minimal in-memory order book: the list of executed orders. Orders are the signal
      dictionaries themselves. */
  class OrderBook {
    var executedOrders: seq<Signal>

    constructor ()
      ensures executedOrders == []
    {
      executedOrders := [];
    }

    /** Appends the order at the end. */
    method Execute(order: Signal)
      modifies this
      ensures executedOrders == old(executedOrders) + [order]
    {
      executedOrders := executedOrders + [order];
    }

    /** Removes the first order equal to `order`; a no-op when there is none. */
    method Reverse(order: Signal)
      modifies this
      ensures executedOrders == RemoveFirst(old(executedOrders), order)
    {
      if order in executedOrders {
        executedOrders := RemoveFirst(executedOrders, order);
      }
    }

    /** The `executed_orders` property: a snapshot copy of the executed orders. A sequence is
        a value, so changing the copy can never change the book. */
    method ExecutedOrders() returns (orders: seq<Signal>)
      ensures orders == executedOrders
    {
      orders := executedOrders;
    }
  }

  /** The two concrete commands. Each holds the order book it acts on and the order. */
  datatype Command =
    | ExecuteOrderCommand(book: OrderBook, order: Signal)
    | UndoOrderCommand(book: OrderBook, order: Signal)

  /** What `command.execute()` does to the orders of the command's book. */
  function ExecuteEffect(command: Command, orders: seq<Signal>): seq<Signal> {
    match command
    case ExecuteOrderCommand(_, order) => orders + [order]
    case UndoOrderCommand(_, order) => RemoveFirst(orders, order)
  }

  /** What `command.undo()` does to the orders of the command's book. */
  function UndoEffect(command: Command, orders: seq<Signal>): seq<Signal> {
    match command
    case ExecuteOrderCommand(_, order) => RemoveFirst(orders, order)
    case UndoOrderCommand(_, order) => orders + [order]
  }

  /** The undo command is the exact swap of the execute command on the same order. */
  lemma UndoOrderIsSwappedExecuteOrder(book: OrderBook, order: Signal, orders: seq<Signal>)
    ensures ExecuteEffect(UndoOrderCommand(book, order), orders) == UndoEffect(ExecuteOrderCommand(book, order), orders)
    ensures UndoEffect(UndoOrderCommand(book, order), orders) == ExecuteEffect(ExecuteOrderCommand(book, order), orders)
  {
  }

  /** Executing an order that is not yet in the book and then undoing it restores the book exactly. */
  lemma ExecuteThenUndoRestores(command: Command, orders: seq<Signal>)
    requires command.ExecuteOrderCommand? && command.order !in orders
    ensures UndoEffect(command, ExecuteEffect(command, orders)) == orders
  {
    RemoveFirstOfFreshAppend(orders, command.order);
  }

  /** Undo removes the FIRST equal order while redo appends at the END: after
      execute, undo and redo the book holds the same orders as right after execute,
      and in the same sequence when the order was not already present. */
  lemma ExecuteUndoRedo(command: Command, orders: seq<Signal>)
    requires command.ExecuteOrderCommand?
    ensures var after := ExecuteEffect(command, orders);
            multiset(ExecuteEffect(command, UndoEffect(command, after))) == multiset(after)
    ensures command.order !in orders ==>
            ExecuteEffect(command, UndoEffect(command, ExecuteEffect(command, orders))) == ExecuteEffect(command, orders)
  {
    var after := orders + [command.order];
    assert command.order in after;
    RemoveFirstMultiset(after, command.order);
    if command.order !in orders {
      RemoveFirstOfFreshAppend(orders, command.order);
    }
  }

  /** With an order already in the book, the round trip reorders it: the earlier copy is
      removed and the order comes back at the end. */
  lemma ExecuteUndoRedoMovesDuplicate(command: Command, orders: seq<Signal>)
    requires command.ExecuteOrderCommand? && command.order in orders
    ensures ExecuteEffect(command, UndoEffect(command, ExecuteEffect(command, orders)))
         == RemoveFirst(orders, command.order) + [command.order] + [command.order]
  {
    RemoveFirstBeforeAppend(orders, command.order, command.order);
  }

  /** Manually reversing an order that is in the book and undoing that reversal keeps the
      book's contents; when the order is absent, the reversal does nothing but its undo
      still adds the order. */
  lemma UndoOrderRoundTrip(command: Command, orders: seq<Signal>)
    requires command.UndoOrderCommand?
    ensures command.order in orders ==>
            multiset(UndoEffect(command, ExecuteEffect(command, orders))) == multiset(orders)
    ensures command.order !in orders ==>
            UndoEffect(command, ExecuteEffect(command, orders)) == orders + [command.order]
  {
    RemoveFirstMultiset(orders, command.order);
  }

  /** Runs `command.execute()` on its book. */
  method RunExecute(command: Command)
    modifies command.book
    ensures command.book.executedOrders == ExecuteEffect(command, old(command.book.executedOrders))
  {
    match command
    case ExecuteOrderCommand(book, order) => book.Execute(order);
    case UndoOrderCommand(book, order) => book.Reverse(order);
  }

  /** Runs `command.undo()` on its book. */
  method RunUndo(command: Command)
    modifies command.book
    ensures command.book.executedOrders == UndoEffect(command, old(command.book.executedOrders))
  {
    match command
    case ExecuteOrderCommand(book, order) => book.Reverse(order);
    case UndoOrderCommand(book, order) => book.Execute(order);
  }

  /** The book of the command on top of a stack, as a frame. */
  function TopBook(stack: seq<Command>): set<object> {
    if stack == [] then {} else {stack[|stack| - 1].book}
  }

  /** Applies commands and keeps the two LIFO stacks of executed and undone commands. */
  class CommandInvoker {
    var history: seq<Command>
    var redoStack: seq<Command>

    constructor ()
      ensures history == [] && redoStack == []
    {
      history := [];
      redoStack := [];
    }

    /** Runs the command, pushes it on the history and clears the redo stack: a new
        branch of history invalidates the old redo path. */
    method Execute(command: Command)
      modifies this, command.book
      ensures command.book.executedOrders == ExecuteEffect(command, old(command.book.executedOrders))
      ensures history == old(history) + [command]
      ensures redoStack == []
    {
      RunExecute(command);
      history := history + [command];
      redoStack := [];
    }

    /** Undoes the most recent command and moves it to the redo stack; `None` and no change
        when there is nothing to undo. */
    method Undo() returns (undone: Option<Command>)
      modifies this, TopBook(history)
      ensures old(history) == [] ==> undone == None && history == [] && redoStack == old(redoStack)
      ensures old(history) != [] ==>
        var top := old(history)[|old(history)| - 1];
        && undone == Some(top)
        && history == old(history)[..|old(history)| - 1]
        && redoStack == old(redoStack) + [top]
        && top.book.executedOrders == UndoEffect(top, old(top.book.executedOrders))
      ensures |history| + |redoStack| == |old(history)| + |old(redoStack)|
    {
      if history == [] {
        return None;
      }
      var command := history[|history| - 1];
      history := history[..|history| - 1];
      RunUndo(command);
      redoStack := redoStack + [command];
      undone := Some(command);
    }

    /** Re-executes the most recently undone command and moves it back to the history;
        `None` and no change when there is nothing to redo. */
    method Redo() returns (redone: Option<Command>)
      modifies this, TopBook(redoStack)
      ensures old(redoStack) == [] ==> redone == None && redoStack == [] && history == old(history)
      ensures old(redoStack) != [] ==>
        var top := old(redoStack)[|old(redoStack)| - 1];
        && redone == Some(top)
        && redoStack == old(redoStack)[..|old(redoStack)| - 1]
        && history == old(history) + [top]
        && top.book.executedOrders == ExecuteEffect(top, old(top.book.executedOrders))
      ensures |history| + |redoStack| == |old(history)| + |old(redoStack)|
    {
      if redoStack == [] {
        return None;
      }
      var command := redoStack[|redoStack| - 1];
      redoStack := redoStack[..|redoStack| - 1];
      RunExecute(command);
      history := history + [command];
      redone := Some(command);
    }
  }

  /** execute(ExecuteOrder A), undo, redo on an invoker: the book ends as right after the
      execute (exactly, when A was not in it before), the history again ends with the
      command and the redo stack is back to empty. */
  method ExecuteUndoRedoScenario(invoker: CommandInvoker, book: OrderBook, order: Signal)
    modifies invoker, book
    ensures multiset(book.executedOrders) == multiset(old(book.executedOrders) + [order])
    ensures order !in old(book.executedOrders) ==> book.executedOrders == old(book.executedOrders) + [order]
    ensures invoker.history == old(invoker.history) + [ExecuteOrderCommand(book, order)]
    ensures invoker.redoStack == []
  {
    var command := ExecuteOrderCommand(book, order);
    ghost var before := book.executedOrders;
    invoker.Execute(command);
    var undone := invoker.Undo();
    var redone := invoker.Redo();
    ExecuteUndoRedo(command, before);
  }

  /** The command history a fresh book and invoker go through for one order: execute the
      order, execute its manual reversal, undo twice and redo once. `trace` holds the book's
      orders after each of the five steps: the order alone, nothing, the order alone again,
      nothing, and the order alone once more. */
  method ReversalUndoRedoScenario(order: Signal) returns (trace: seq<seq<Signal>>)
    ensures trace == [[order], [], [order], [], [order]]
    ensures forall k :: 0 <= k < |trace| ==> (order in trace[k] <==> k % 2 == 0)
  {
    var book := new OrderBook();
    var invoker := new CommandInvoker();
    invoker.Execute(ExecuteOrderCommand(book, order));
    var afterExecute := book.ExecutedOrders();
    assert afterExecute == [order];
    invoker.Execute(UndoOrderCommand(book, order));
    var afterReverse := book.ExecutedOrders();
    assert afterReverse == [] by {
      assert [order] == [order] + [];
    }
    var firstUndo := invoker.Undo();
    var afterFirstUndo := book.ExecutedOrders();
    assert afterFirstUndo == [order];
    var secondUndo := invoker.Undo();
    var afterSecondUndo := book.ExecutedOrders();
    var redone := invoker.Redo();
    var afterRedo := book.ExecutedOrders();
    trace := [afterExecute, afterReverse, afterFirstUndo, afterSecondUndo, afterRedo];
  }
}
