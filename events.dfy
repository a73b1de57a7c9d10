/**
 * The calls the block reconstructor makes on its build logger, and what a log of
 * such calls means as a nesting of blocks.
 */
module Events {
  import opened Wrappers

  /** One logger call. A block description is a Java string that may be null. */
  datatype Event =
    | BlockStart(description: Option<string>)
    | BlockFinish(description: Option<string>)
    | Message(text: string)

  /** One message per line, in the order of the lines. */
  function Messages(lines: seq<string>): (r: seq<Event>)
    ensures |r| == |lines|
    ensures forall i :: 0 <= i < |lines| ==> r[i] == Message(lines[i])
  {
    if lines == [] then [] else Messages(lines[..|lines| - 1]) + [Message(lines[|lines| - 1])]
  }

  /**
   * The descriptions of the blocks left open after `e`, given those open before it;
   * None once a finish does not close the innermost open block.
   */
  function Replay(open: Option<seq<Option<string>>>, e: Event): Option<seq<Option<string>>>
  {
    match open
    case None => None
    case Some(o) =>
      match e
      case BlockStart(d) => Some(o + [d])
      case BlockFinish(d) => if o != [] && o[|o| - 1] == d then Some(o[..|o| - 1]) else None
      case Message(_) => open
  }

  /** The blocks a log leaves open, innermost last, or None if it is not well bracketed. */
  function OpenBlocks(log: seq<Event>): Option<seq<Option<string>>>
  {
    if log == [] then Some([]) else Replay(OpenBlocks(log[..|log| - 1]), log[|log| - 1])
  }

  function Starts(log: seq<Event>): nat
  {
    if log == [] then 0
    else Starts(log[..|log| - 1]) + (if log[|log| - 1].BlockStart? then 1 else 0)
  }

  function Finishes(log: seq<Event>): nat
  {
    if log == [] then 0
    else Finishes(log[..|log| - 1]) + (if log[|log| - 1].BlockFinish? then 1 else 0)
  }

  lemma OpenBlocksSnoc(log: seq<Event>, e: Event)
    ensures OpenBlocks(log + [e]) == Replay(OpenBlocks(log), e)
  {
  }

  /** Messages never open or close a block. */
  lemma {:induction false} OpenBlocksIgnoreMessages(log: seq<Event>, lines: seq<string>)
    ensures OpenBlocks(log + Messages(lines)) == OpenBlocks(log)
  {
    if lines != [] {
      var n := |lines| - 1;
      OpenBlocksIgnoreMessages(log, lines[..n]);
      assert log + Messages(lines) == (log + Messages(lines[..n])) + [Message(lines[n])];
      OpenBlocksSnoc(log + Messages(lines[..n]), Message(lines[n]));
    } else {
      assert log + Messages(lines) == log;
    }
  }

  /** In a well-bracketed log, the blocks still open are the starts not yet finished. */
  lemma {:induction false} OpenBlocksBalance(log: seq<Event>)
    requires OpenBlocks(log).Some?
    ensures |OpenBlocks(log).value| + Finishes(log) == Starts(log)
  {
    if log != [] {
      var n := |log| - 1;
      assert OpenBlocks(log[..n]).Some?;
      OpenBlocksBalance(log[..n]);
    }
  }
}
