/**
 The stack search and the traceback of LuaCompat.cpp: the number of levels is
 found by doubling and bisecting, and a deep stack is printed with its middle
 left out.
 */
module StackTraceback {

  /** lua_getstack on a stack of the given depth. */
  predicate GetStack(depth: nat, level: int) {
    0 <= level < depth
  }

  function Max(a: int, b: int): int {
    if a < b then b else a
  }

  /**
   The deepest valid level; both loops only ask about single levels. The program
   counts in int: peak is the largest number it computes, and it fits for every
   stack of up to 0x2AAA_AAAA levels, far more than Lua allows.
   */
  method CountLevels(depth: nat) returns (last: nat, ghost peak: int)
    ensures if depth == 0 then last == 0 else GetStack(depth, last) && !GetStack(depth, last + 1)
    ensures peak <= 3 * depth + 1
    ensures depth <= 0x2AAA_AAAA ==> peak < 0x8000_0000
  {
    var li, le := 1, 1;
    peak := 1;
    while GetStack(depth, le)
      invariant 1 <= li <= le <= 2 * li
      invariant li == 1 || GetStack(depth, li)
      invariant le == 1 || GetStack(depth, li)
      invariant le <= peak <= 2 * depth + 1
      decreases depth - le
    {
      li := le;
      le := le * 2;
      peak := Max(peak, le);
    }
    while li < le
      invariant 1 <= li <= le
      invariant GetStack(depth, li - 1) || li == 1
      invariant !GetStack(depth, le) && le <= 2 * depth + 1
      invariant depth > 1 ==> li <= depth && le <= 2 * depth
      invariant depth <= 1 ==> li == le
      invariant le <= peak <= 3 * depth + 1
    {
      peak := Max(peak, li + le);
      var m := (li + le) / 2;
      if GetStack(depth, m) {
        li := m + 1;
        peak := Max(peak, li);
      } else {
        le := m;
      }
    }
    return le - 1, peak;
  }

  const LEVELS1 := 12
  const LEVELS2 := 10

  datatype Line = Frame(level: nat) | Dots

  /** The frames at levels a .. b - 1. */
  function Frames(a: nat, b: nat): (lines: seq<Line>)
    requires a <= b
    ensures |lines| == b - a && forall i :: 0 <= i < |lines| ==> lines[i] == Frame(a + i)
  {
    seq(b - a, i requires 0 <= i < b - a => Frame(a + i))
  }

  /** The middle of the stack is left out. */
  predicate Elided(depth: nat, start: int) {
    depth > LEVELS1 + LEVELS2 + 1 && 0 <= start < LEVELS1
  }

  /** What a traceback prints after its title. */
  function Printed(depth: nat, start: int): seq<Line> {
    if !GetStack(depth, start) then []
    else if Elided(depth, start) then Frames(start, LEVELS1 - 1) + [Dots] + Frames(depth - LEVELS2 - 1, depth)
    else Frames(start, depth)
  }

  method Traceback(depth: nat, start: int) returns (lines: seq<Line>)
    ensures lines == Printed(depth, start)
  {
    var level := start;
    var numlevels, _ := CountLevels(depth);
    var mark := if numlevels > LEVELS1 + LEVELS2 then LEVELS1 else 0;
    lines := [];
    ghost var skipped := false;
    while GetStack(depth, level)
      invariant skipped ==> Elided(depth, start) && depth - LEVELS2 - 1 <= level <= depth
      invariant skipped ==>
                  lines == Frames(start, LEVELS1 - 1) + [Dots] + Frames(depth - LEVELS2 - 1, level)
      invariant !skipped ==> start <= level && (level > start ==> level <= depth && start >= 0)
      invariant !skipped && start >= 0 && level >= start ==> lines == Frames(start, level)
      invariant !skipped && Elided(depth, start) ==> level < LEVELS1
      invariant !GetStack(depth, start) ==> lines == [] && level == start
      decreases depth - level
    {
      level := level + 1;
      if level == mark {
        lines := lines + [Dots];
        level := numlevels - LEVELS2;
        skipped := true;
      } else {
        lines := lines + [Frame(level - 1)];
      }
    }
  }

  // ---- What is printed ----

  function Levels(lines: seq<Line>): seq<nat> {
    if lines == [] then []
    else (if lines[0].Frame? then [lines[0].level] else []) + Levels(lines[1..])
  }

  lemma NoLevels()
    ensures Levels([]) == []
  {
  }

  lemma {:induction false} LevelsConcat(a: seq<Line>, b: seq<Line>)
    ensures Levels(a + b) == Levels(a) + Levels(b)
  {
    if a == [] {
      assert a + b == b;
    } else {
      assert (a + b)[0] == a[0] && (a + b)[1..] == a[1..] + b;
      LevelsConcat(a[1..], b);
    }
  }

  lemma {:induction false} LevelsOfFrames(a: nat, b: nat)
    requires a <= b
    ensures |Levels(Frames(a, b))| == b - a
    ensures forall i :: 0 <= i < b - a ==> Levels(Frames(a, b))[i] == a + i
    decreases b - a
  {
    if a < b {
      assert Frames(a, b)[1..] == Frames(a + 1, b);
      LevelsOfFrames(a + 1, b);
    }
  }

  lemma ElidedLevels(depth: nat, start: int)
    requires Elided(depth, start)
    ensures Levels(Printed(depth, start)) ==
            Levels(Frames(start, LEVELS1 - 1)) + Levels(Frames(depth - LEVELS2 - 1, depth))
  {
    LevelsConcat(Frames(start, LEVELS1 - 1) + [Dots], Frames(depth - LEVELS2 - 1, depth));
    LevelsConcat(Frames(start, LEVELS1 - 1), [Dots]);
  }

  /** Every frame that is printed exists, and deeper frames come later. */
  lemma LevelsIncrease(depth: nat, start: int)
    ensures var ls := Levels(Printed(depth, start));
            && (forall i :: 0 <= i < |ls| ==> start <= ls[i] < depth)
            && (forall i, j :: 0 <= i < j < |ls| ==> ls[i] < ls[j])
  {
    hide Levels;
    if Elided(depth, start) {
      ElidedLevels(depth, start);
      LevelsOfFrames(start, LEVELS1 - 1);
      LevelsOfFrames(depth - LEVELS2 - 1, depth);
    } else if GetStack(depth, start) {
      LevelsOfFrames(start, depth);
    } else {
      NoLevels();
    }
  }

  /**
   Without elision every level from start on is printed; with it those up to
   level 10 and the last 11, one marker between them, and at least two levels
   are missing.
   */
  lemma WhichLevels(depth: nat, start: int, level: nat)
    requires GetStack(depth, start)
    ensures level in Levels(Printed(depth, start)) <==>
              start <= level < depth && (Elided(depth, start) ==> level <= 10 || level >= depth - 11)
    ensures multiset(Printed(depth, start))[Dots] == if Elided(depth, start) then 1 else 0
    ensures Elided(depth, start) ==> !(11 in Levels(Printed(depth, start))) && !(12 in Levels(Printed(depth, start)))
  {
    hide Levels;
    DotsInPrinted(depth, start);
    if Elided(depth, start) {
      ElidedLevels(depth, start);
      InRange(start, LEVELS1 - 1);
      InRange(depth - LEVELS2 - 1, depth);
    } else {
      InRange(start, depth);
    }
  }

  /**
   Line by line: without elision line i is level start + i. With it the lines up
   to level 10 come first, the marker directly after them, and the last 11 levels
   directly after the marker.
   */
  lemma LineByLine(depth: nat, start: nat, i: nat)
    requires i < |Printed(depth, start)|
    ensures !Elided(depth, start) ==>
              |Printed(depth, start)| == depth - start && Printed(depth, start)[i] == Frame(start + i)
    ensures Elided(depth, start) ==>
              && |Printed(depth, start)| == 23 - start
              && Printed(depth, start)[i] ==
                 if start + i < 11 then Frame(start + i)
                 else if start + i == 11 then Dots
                 else Frame(depth - 23 + start + i)
  {
  }

  lemma DotsInPrinted(depth: nat, start: int)
    requires GetStack(depth, start)
    ensures multiset(Printed(depth, start))[Dots] == if Elided(depth, start) then 1 else 0
  {
    if Elided(depth, start) {
      assert Dots !in Frames(start, LEVELS1 - 1) && Dots !in Frames(depth - LEVELS2 - 1, depth);
    } else {
      assert Dots !in Frames(start, depth);
    }
  }

  lemma InRange(a: nat, b: nat)
    requires a <= b
    ensures forall level: nat :: level in Levels(Frames(a, b)) <==> a <= level < b
  {
    LevelsOfFrames(a, b);
    forall level: nat | a <= level < b
      ensures level in Levels(Frames(a, b))
    {
      assert Levels(Frames(a, b))[level - a] == level;
    }
  }

  /**
   At most 23 frames are printed when the traceback starts at a level up to 11.
   Started deeper it prints all that is left, so the bound holds exactly when
   the stack has at most 23 levels from there.
   */
  lemma FramesAreBounded(depth: nat, start: int)
    ensures |Levels(Printed(depth, start))| <= 23 <==> start < LEVELS1 || depth - start <= 23
  {
    hide Levels;
    if Elided(depth, start) {
      ElidedLevels(depth, start);
      LevelsOfFrames(start, LEVELS1 - 1);
      LevelsOfFrames(depth - LEVELS2 - 1, depth);
    } else if GetStack(depth, start) {
      LevelsOfFrames(start, depth);
    } else {
      NoLevels();
    }
  }
}
