/** The cursor the editor hands to a mode: one line of text and a position in it.
    The primitives below are the behaviour the Dylan mode relies on; they are
    stated once as functions over `(line, pos)` and used by the `StringStream`
    class, whose `pos` field the tokenizers advance in place. */
module Stream {
  import opened CharClass

  datatype Option<T> = None | Some(value: T)

  /** Greedy scan: the first position at or after `pos` whose character does not
      satisfy `p` (the end of the line if there is none). This is what `eatWhile`,
      `eatSpace` and a regex `x*` or `x+` at the cursor consume up to. */
  function ScanWhile(line: seq<char>, pos: nat, p: char -> bool): (r: nat)
    requires pos <= |line|
    ensures pos <= r <= |line|
    ensures forall i :: pos <= i < r ==> p(line[i])
    ensures r == |line| || !p(line[r])
    decreases |line| - pos
  {
    if pos == |line| || !p(line[pos]) then pos else ScanWhile(line, pos + 1, p)
  }

  /** The end of the greedy scan is determined by the contract above: a run that
      satisfies `p` and is followed by a failing character or the end of the line. */
  lemma ScanWhileIs(line: seq<char>, pos: nat, p: char -> bool, e: nat)
    requires pos <= e <= |line|
    requires forall i :: pos <= i < e ==> p(line[i])
    requires e == |line| || !p(line[e])
    ensures ScanWhile(line, pos, p) == e
  {
  }

  /** The first index at or after `pos` that holds `c`, as `String.indexOf` finds it. */
  function IndexOf(line: seq<char>, pos: nat, c: char): (r: Option<nat>)
    requires pos <= |line|
    ensures r.Some? ==> pos <= r.value < |line| && line[r.value] == c
    ensures r.Some? ==> forall i :: pos <= i < r.value ==> line[i] != c
    ensures r.None? ==> forall i :: pos <= i < |line| ==> line[i] != c
    decreases |line| - pos
  {
    if pos == |line| then None
    else if line[pos] == c then Some(pos)
    else IndexOf(line, pos + 1, c)
  }

  /** Whether `s` occurs at `pos`, case-sensitively (`match` given a string). */
  predicate HasPrefixAt(line: seq<char>, pos: nat, s: seq<char>)
    requires pos <= |line|
  {
    pos + |s| <= |line| && line[pos..pos + |s|] == s
  }

  /** Where `skipTo(c)` leaves the cursor: on the next `c`, or where it was. */
  function SkipToTarget(line: seq<char>, pos: nat, c: char): (r: nat)
    requires pos <= |line|
    ensures pos <= r <= |line|
    ensures r != pos ==> r < |line| && line[r] == c
    ensures forall i :: pos <= i < r ==> line[i] != c
    ensures r == pos && (pos == |line| || line[pos] != c) ==> forall i :: pos <= i < |line| ==> line[i] != c
  {
    match IndexOf(line, pos, c)
    case Some(i) => i
    case None => pos
  }

  /** A line of text with a cursor that the tokenizers advance. */
  class StringStream {
    const str: seq<char>
    var pos: nat

    ghost predicate Valid()
      reads this
    {
      pos <= |str|
    }

    constructor (s: seq<char>)
      ensures Valid() && str == s && pos == 0
    {
      str := s;
      pos := 0;
    }

    /** `sol`: the cursor is at the start of the line. */
    predicate Sol()
      reads this
    {
      pos == 0
    }

    /** `peek`: the character under the cursor, if any, without consuming it. */
    function Peek(): (r: Option<char>)
      reads this
      requires Valid()
      ensures r.Some? <==> pos < |str|
      ensures r.Some? ==> r.value == str[pos]
    {
      if pos < |str| then Some(str[pos]) else None
    }

    /** `next`: consume and return one character; nothing happens at the end of the line. */
    method Next() returns (ch: Option<char>)
      requires Valid()
      modifies this
      ensures Valid()
      ensures old(pos) < |str| ==> ch == Some(str[old(pos)]) && pos == old(pos) + 1
      ensures old(pos) == |str| ==> ch == None && pos == old(pos)
    {
      if pos < |str| {
        ch := Some(str[pos]);
        pos := pos + 1;
      } else {
        ch := None;
      }
    }

    /** `eat(c)`: consume the next character when it is `c`. */
    method Eat(c: char) returns (ok: bool)
      requires Valid()
      modifies this
      ensures Valid()
      ensures ok <==> old(pos) < |str| && str[old(pos)] == c
      ensures pos == if ok then old(pos) + 1 else old(pos)
    {
      ok := pos < |str| && str[pos] == c;
      if ok {
        pos := pos + 1;
      }
    }

    /** `eatWhile(p)`: consume the longest run of characters satisfying `p`. */
    method EatWhile(p: char -> bool) returns (ok: bool)
      requires Valid()
      modifies this
      ensures Valid()
      ensures pos == ScanWhile(str, old(pos), p)
      ensures ok <==> pos > old(pos)
    {
      var start := pos;
      pos := ScanWhile(str, pos, p);
      ok := pos > start;
    }

    /** `eatSpace`: consume the longest run of white space. */
    method EatSpace() returns (ok: bool)
      requires Valid()
      modifies this
      ensures Valid()
      ensures pos == ScanWhile(str, old(pos), IsSpace)
      ensures ok <==> pos > old(pos)
    {
      ok := EatWhile(IsSpace);
    }

    /** `match(s)` with a string: consume `s` when the line continues with it. */
    method MatchString(s: seq<char>) returns (ok: bool)
      requires Valid()
      modifies this
      ensures Valid()
      ensures ok <==> HasPrefixAt(str, old(pos), s)
      ensures pos == if ok then old(pos) + |s| else old(pos)
    {
      ok := HasPrefixAt(str, pos, s);
      if ok {
        pos := pos + |s|;
      }
    }

    /** `match(re)` with a regular expression: `m` is where a match of `re` that
        starts at the cursor ends, or `None` when no such match exists (a match
        found further along the line is refused, as the stream does). */
    method MatchRegex(m: Option<nat>) returns (ok: bool)
      requires Valid()
      requires m.Some? ==> pos <= m.value <= |str|
      modifies this
      ensures Valid()
      ensures ok <==> m.Some?
      ensures pos == if ok then m.value else old(pos)
    {
      ok := m.Some?;
      if ok {
        pos := m.value;
      }
    }

    /** `skipToEnd`: consume the rest of the line. */
    method SkipToEnd()
      requires Valid()
      modifies this
      ensures Valid() && pos == |str|
    {
      pos := |str|;
    }

    /** `skipTo(c)`: move the cursor onto the next `c`; stay put when there is none. */
    method SkipTo(c: char) returns (found: bool)
      requires Valid()
      modifies this
      ensures Valid()
      ensures found <==> IndexOf(str, old(pos), c).Some?
      ensures pos == SkipToTarget(str, old(pos), c)
    {
      var i := IndexOf(str, pos, c);
      found := i.Some?;
      if found {
        pos := i.value;
      }
    }
  }
}
