/**
 * RegexParser: a named, ordered list of patterns, offered each line of build output
 * in turn until one of them accepts it. What a single pattern does with a line is
 * RegexPattern.processLine, which is not part of this model: it is passed in as a
 * function giving, for a pattern and a line, whether it accepted the line, declined
 * it, or threw an exception.
 */
module RegexParsing {

  datatype Outcome = Accepted | Declined | Failed

  /** The text reported to the manager's parsingError when a pattern throws on `line`. */
  function ErrorReport(line: string): (r: string)
    ensures |r| == |line| + 21
    ensures r[..20] == "Error parsing line [" && r[20..|r| - 1] == line && r[|r| - 1] == ']'
  {
    "Error parsing line [" + line + "]"
  }

  function Reports(line: string, n: nat): seq<string>
  {
    seq(n, _ => ErrorReport(line))
  }

  /** The index of the first pattern that accepts `line`, or |patterns| when none does. */
  function FirstAccepting<P>(patterns: seq<P>, line: string, apply: (P, string) -> Outcome): (k: nat)
    ensures k <= |patterns|
    ensures forall i :: 0 <= i < k ==> apply(patterns[i], line) != Accepted
    ensures k < |patterns| ==> apply(patterns[k], line) == Accepted
  {
    if patterns == [] then 0
    else if apply(patterns[0], line) == Accepted then 0
    else 1 + FirstAccepting(patterns[1..], line, apply)
  }

  /** How many of `patterns` throw on `line`. */
  function Failures<P>(patterns: seq<P>, line: string, apply: (P, string) -> Outcome): (n: nat)
    ensures n <= |patterns|
  {
    if patterns == [] then 0
    else
      Failures(patterns[..|patterns| - 1], line, apply)
      + (if apply(patterns[|patterns| - 1], line) == Failed then 1 else 0)
  }

  /** The position of the first occurrence of `x` in `s`, or |s| when there is none. */
  function IndexOf<T(==)>(s: seq<T>, x: T): (i: nat)
    ensures i <= |s|
    ensures i < |s| ==> s[i] == x
    ensures forall j :: 0 <= j < i ==> s[j] != x
  {
    if s == [] then 0 else if s[0] == x then 0 else 1 + IndexOf(s[1..], x)
  }

  /** `s` without its first occurrence of `x`, as List.remove(Object) does. */
  function RemoveFirst<T(==)>(s: seq<T>, x: T): (r: seq<T>)
    ensures IndexOf(s, x) == |s| ==> r == s
    ensures IndexOf(s, x) < |s| ==> |r| == |s| - 1
  {
    var i := IndexOf(s, x);
    if i < |s| then s[..i] + s[i + 1..] else s
  }

  /**
   * Removing an element present in the list removes exactly one copy of it, the first,
   * and keeps the others in order; removing an absent element changes nothing.
   */
  lemma RemoveFirstDropsOneCopy<T>(s: seq<T>, x: T)
    ensures x !in s ==> RemoveFirst(s, x) == s
    ensures x in s ==>
      var i := IndexOf(s, x);
      && i < |s| && s[i] == x && x !in s[..i]
      && RemoveFirst(s, x) == s[..i] + s[i + 1..]
      && |RemoveFirst(s, x)| == |s| - 1
      && multiset(RemoveFirst(s, x)) == multiset(s) - multiset{x}
  {
    var i := IndexOf(s, x);
    if x in s {
      if i == |s| {
        assert false;
      }
      assert x !in s[..i];
      DropAtRemovesOneCopy(s, i);
    }
  }

  /** Cutting out position `i` removes one copy of `s[i]` from the multiset. */
  lemma DropAtRemovesOneCopy<T>(s: seq<T>, i: nat)
    requires i < |s|
    ensures multiset(s[..i] + s[i + 1..]) == multiset(s) - multiset{s[i]}
  {
    assert s == s[..i] + ([s[i]] + s[i + 1..]);
    assert multiset(s) == multiset(s[..i]) + multiset{s[i]} + multiset(s[i + 1..]);
  }

  /** Removing a pattern that was not in the list before it was added undoes the add. */
  lemma RemoveUndoesAdd<T>(s: seq<T>, x: T)
    requires x !in s
    ensures RemoveFirst(s + [x], x) == s
  {
    var i := IndexOf(s + [x], x);
    assert (s + [x])[|s|] == x;
    assert (s + [x])[..|s|] == s;
    assert (s + [x])[|s| + 1..] == [];
  }

  /**
   * Patterns after the first accepting one are never consulted: appending to the list
   * changes neither which pattern accepts nor the failures reported before it.
   */
  lemma LaterPatternsNotConsulted<P>(patterns: seq<P>, rest: seq<P>, line: string,
                                     apply: (P, string) -> Outcome)
    requires FirstAccepting(patterns, line, apply) < |patterns|
    ensures var k := FirstAccepting(patterns, line, apply);
      && FirstAccepting(patterns + rest, line, apply) == k
      && Failures((patterns + rest)[..k], line, apply) == Failures(patterns[..k], line, apply)
  {
    var k := FirstAccepting(patterns, line, apply);
    var k' := FirstAccepting(patterns + rest, line, apply);
    assert (patterns + rest)[k] == patterns[k];
    assert (patterns + rest)[..k] == patterns[..k];
  }

  class RegexParser<P(==)> {
    var id: string
    var name: string
    var patterns: seq<P>

    /** The parser named after its own class, with no patterns. */
    constructor Default()
      ensures id == "jetbrains.buildServer.makerunner.agent.output.RegexParser"
      ensures name == "RegexParser"
      ensures patterns == []
    {
      name := "RegexParser";
      id := "jetbrains.buildServer.makerunner.agent.output.RegexParser";
      patterns := [];
    }

    constructor (id: string, name: string)
      ensures GetId() == id && GetName() == name && GetPatterns() == []
    {
      this.name := name;
      this.id := id;
      patterns := [];
    }

    method SetId(id: string)
      modifies this`id
      ensures GetId() == id
      ensures name == old(name) && patterns == old(patterns)
    {
      this.id := id;
    }

    method SetName(name: string)
      modifies this`name
      ensures GetName() == name
      ensures id == old(id) && patterns == old(patterns)
    {
      this.name := name;
    }

    method AddPattern(pattern: P)
      modifies this`patterns
      ensures patterns == old(patterns) + [pattern]
    {
      patterns := patterns + [pattern];
    }

    method RemovePattern(pattern: P)
      modifies this`patterns
      ensures patterns == RemoveFirst(old(patterns), pattern)
    {
      patterns := RemoveFirst(patterns, pattern);
    }

    method ClearPatterns()
      modifies this`patterns
      ensures patterns == []
    {
      patterns := [];
    }

    /** "id=<id>, name=<name>": the id after "id=", the name after ", name=". */
    function ToString(): (r: string)
      reads this
      ensures |r| == 10 + |id| + |name|
      ensures r[..3] == "id=" && r[3..3 + |id|] == id
      ensures r[3 + |id|..10 + |id|] == ", name=" && r[10 + |id|..] == name
    {
      "id=" + id + ", name=" + name
    }

    /** The id given to the constructor or to the last SetId. */
    function GetId(): string
      reads this
    {
      id
    }

    /** The name given to the constructor or to the last SetName. */
    function GetName(): string
      reads this
    {
      name
    }

    /** The patterns in the order they are tried. */
    function GetPatterns(): seq<P>
      reads this
    {
      patterns
    }

    /**
     * Offers `line` to the patterns in order and stops at the first that accepts it.
     * A pattern that throws is reported once, as `errors` shows, and the next pattern
     * is tried. True exactly when some pattern accepted the line.
     */
    method ProcessLine(line: string, apply: (P, string) -> Outcome)
      returns (accepted: bool, errors: seq<string>)
      ensures var k := FirstAccepting(patterns, line, apply);
        && accepted == (k < |patterns|)
        && errors == Reports(line, Failures(patterns[..k], line, apply))
      ensures accepted <==> exists i :: 0 <= i < |patterns| && apply(patterns[i], line) == Accepted
      ensures patterns == [] ==> !accepted && errors == []
    {
      errors := [];
      for i := 0 to |patterns|
        invariant forall j :: 0 <= j < i ==> apply(patterns[j], line) != Accepted
        invariant errors == Reports(line, Failures(patterns[..i], line, apply))
      {
        assert patterns[..i + 1][..i] == patterns[..i];
        var outcome := apply(patterns[i], line);
        if outcome == Accepted {
          return true, errors;
        }
        if outcome == Failed {
          errors := errors + [ErrorReport(line)];
        }
      }
      assert patterns[..|patterns|] == patterns;
      return false, errors;
    }
  }
}
