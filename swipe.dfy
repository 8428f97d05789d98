/** The swipe-triage card stack: a cursor walks the ordered idea list, each
    decision is Save (right) or Skip (left), saved ideas are appended to the
    liked list, and a decision on the last card hands the liked list to the
    completion callback.

    The pure part (`Decide`, `Run`, `Kept`) is the specification; the class
    `SwipeableCards` holds the component's state and is proved against it. */
module Swipe {
  import opened Types

  /** Which way a card leaves: right saves it, left skips it. */
  datatype Direction = Left | Right

  /** The drag distance, in pixels, that a release must exceed to count. */
  const Threshold: int := 100

  function Abs(x: int): nat {
    if x < 0 then -x else x
  }

  /** The decision a drag release makes from its horizontal offset: none
      within the threshold, otherwise right for a positive offset and left
      for a negative one. */
  function DragDecision(offsetX: int): (d: Option<Direction>)
    ensures d.None? <==> -Threshold <= offsetX <= Threshold
    ensures d == Some(Right) <==> offsetX > Threshold
    ensures d == Some(Left) <==> offsetX < -Threshold
  {
    if Abs(offsetX) > Threshold then Some(if offsetX > 0 then Right else Left) else None
  }

  /** The two state fields of the card stack: the cursor and the liked list. */
  datatype Cards = Cards(index: nat, saved: seq<Idea>)

  /** One decision on the card at the cursor, with the completion it fires
      (None when it fires none). */
  function Decide(ideas: seq<Idea>, s: Cards, d: Direction): (r: (Cards, Option<seq<Idea>>))
    requires s.index < |ideas|
    ensures r.0.saved == (if d == Right then s.saved + [ideas[s.index]] else s.saved)
    ensures s.index + 1 < |ideas| ==> r.0.index == s.index + 1 && r.1 == None
    ensures s.index + 1 == |ideas| ==> r.0.index == s.index && r.1 == Some(r.0.saved)
  {
    var saved := if d == Right then s.saved + [ideas[s.index]] else s.saved;
    if s.index == |ideas| - 1 then (Cards(s.index, saved), Some(saved))
    else (Cards(s.index + 1, saved), None)
  }

  /** The ideas of `xs` whose decision in `ds` was Save, in order. */
  function Kept(xs: seq<Idea>, ds: seq<Direction>): (r: seq<Idea>)
    requires |xs| == |ds|
    decreases |ds|
  {
    if ds == [] then []
    else Kept(xs[..|xs| - 1], ds[..|ds| - 1]) + (if ds[|ds| - 1] == Right then [xs[|xs| - 1]] else [])
  }

  /** The number of Save decisions in `ds`. */
  function CountSaves(ds: seq<Direction>): nat
    decreases |ds|
  {
    if ds == [] then 0 else CountSaves(ds[..|ds| - 1]) + (if ds[|ds| - 1] == Right then 1 else 0)
  }

  /** The liked list holds one idea per Save decision, each one an idea of
      the list it was drawn from. */
  lemma {:induction false} KeptShape(xs: seq<Idea>, ds: seq<Direction>)
    requires |xs| == |ds|
    ensures |Kept(xs, ds)| == CountSaves(ds) <= |xs|
    ensures forall x :: x in Kept(xs, ds) ==> x in xs
    decreases |ds|
  {
    if ds != [] {
      var n := |ds|;
      KeptShape(xs[..n - 1], ds[..n - 1]);
      forall x | x in Kept(xs, ds) ensures x in xs {
        if x in Kept(xs[..n - 1], ds[..n - 1]) {
          assert x in xs[..n - 1];
        }
      }
    }
  }

  /** The state and the completions fired after the decisions `ds`, taken
      one after the other from the initial state (cursor 0, nothing liked). */
  function Run(ideas: seq<Idea>, ds: seq<Direction>): (r: (Cards, seq<seq<Idea>>))
    requires |ideas| > 0
    ensures r.0.index < |ideas|
    decreases |ds|
  {
    if ds == [] then (Cards(0, []), [])
    else
      var prev := Run(ideas, ds[..|ds| - 1]);
      var step := Decide(ideas, prev.0, ds[|ds| - 1]);
      (step.0, prev.1 + if step.1.Some? then [step.1.value] else [])
  }

  /** Before the last card is decided, the cursor counts the decisions, no
      completion has fired, and the liked list is exactly the in-order
      subsequence of the decided ideas that received Save. */
  lemma {:induction false} RunBeforeLast(ideas: seq<Idea>, ds: seq<Direction>)
    requires |ds| < |ideas|
    ensures Run(ideas, ds) == (Cards(|ds|, Kept(ideas[..|ds|], ds)), [])
    decreases |ds|
  {
    if ds != [] {
      var n := |ds|;
      var init := ds[..n - 1];
      RunBeforeLast(ideas, init);
      var prev := Run(ideas, init);
      var step := Decide(ideas, prev.0, ds[n - 1]);
      assert step.1 == None;
      assert Run(ideas, ds).0 == step.0;
      assert Run(ideas, ds).1 == prev.1 + [];
      assert ideas[..n][..n - 1] == ideas[..n - 1];
      assert ideas[..n][n - 1] == ideas[n - 1];
      assert Kept(ideas[..n], ds)
        == Kept(ideas[..n - 1], init) + (if ds[n - 1] == Right then [ideas[n - 1]] else []);
      assert step.0 == Cards(n, Kept(ideas[..n], ds));
    }
  }

  /** Deciding every card fires the completion exactly once, at the last
      card, with the Saved ideas in order; the cursor stays on that card. */
  lemma {:induction false} RunToEnd(ideas: seq<Idea>, ds: seq<Direction>)
    requires 0 < |ideas| == |ds|
    ensures Run(ideas, ds) == (Cards(|ideas| - 1, Kept(ideas, ds)), [Kept(ideas, ds)])
  {
    var n := |ds|;
    var init := ds[..n - 1];
    RunBeforeLast(ideas, init);
    var prev := Run(ideas, init);
    var step := Decide(ideas, prev.0, ds[n - 1]);
    assert ideas[..n] == ideas;
    assert Kept(ideas, ds)
      == Kept(ideas[..n - 1], init) + (if ds[n - 1] == Right then [ideas[n - 1]] else []);
    assert step.0 == Cards(n - 1, Kept(ideas, ds));
    assert step.1 == Some(Kept(ideas, ds));
    assert Run(ideas, ds).0 == step.0;
    assert Run(ideas, ds).1 == prev.1 + [step.1.value];
    assert prev.1 == [];
    assert Run(ideas, ds).1 == [Kept(ideas, ds)];
  }

  /** Nothing stops a decision on the last card after the completion has
      fired: each further decision fires the completion once more, and the
      cursor never moves past the last card. */
  lemma {:induction false} RunPastEnd(ideas: seq<Idea>, ds: seq<Direction>)
    requires 0 < |ideas| <= |ds|
    ensures Run(ideas, ds).0.index == |ideas| - 1
    ensures |Run(ideas, ds).1| == |ds| - |ideas| + 1
    decreases |ds|
  {
    if |ds| == |ideas| {
      RunToEnd(ideas, ds);
    } else {
      RunPastEnd(ideas, ds[..|ds| - 1]);
    }
  }

  /** The card stack component: `ideas` is its input, `currentIndex` and
      `savedIdeas` its state. The ghost field `decisions` records every
      decision taken so far. */
  class SwipeableCards {
    const ideas: seq<Idea>
    var currentIndex: nat
    var savedIdeas: seq<Idea>
    ghost var decisions: seq<Direction>

    /** The state is the one reached by taking the recorded decisions in
        order from the initial state. */
    ghost predicate Valid()
      reads this
    {
      if |ideas| == 0 then decisions == [] && currentIndex == 0 && savedIdeas == []
      else Run(ideas, decisions).0 == Cards(currentIndex, savedIdeas)
    }

    /** The completions fired so far, each with the liked list it handed over. */
    ghost function Completions(): seq<seq<Idea>>
      reads this
      requires Valid()
    {
      if |ideas| == 0 then [] else Run(ideas, decisions).1
    }

    constructor (ideas: seq<Idea>)
      ensures Valid()
      ensures this.ideas == ideas && currentIndex == 0 && savedIdeas == [] && decisions == []
    {
      this.ideas := ideas;
      currentIndex := 0;
      savedIdeas := [];
      decisions := [];
    }

    /** The idea on the shown card, or None when nothing is rendered (an
        empty list, or a cursor past the end). */
    function CurrentIdea(): (c: Option<Idea>)
      reads this
      ensures c.Some? <==> currentIndex < |ideas|
      ensures c.Some? ==> c.value == ideas[currentIndex]
    {
      if currentIndex < |ideas| then Some(ideas[currentIndex]) else None
    }

    /** The card counter "position / total", shown only while a card is. */
    function Counter(): (c: Option<(nat, nat)>)
      reads this
      ensures c.Some? <==> CurrentIdea().Some?
      ensures c.Some? ==> c.value == (currentIndex + 1, |ideas|)
      ensures c.Some? ==> 1 <= c.value.0 <= c.value.1
    {
      if currentIndex < |ideas| then Some((currentIndex + 1, |ideas|)) else None
    }

    /** A tap on the Skip (left) or Save (right) button while a card is
        shown. The completion, if fired, is returned. */
    method HandleSwipe(direction: Direction) returns (completed: Option<seq<Idea>>)
      requires Valid() && currentIndex < |ideas|
      modifies this
      ensures Valid()
      ensures decisions == old(decisions) + [direction]
      ensures (Cards(currentIndex, savedIdeas), completed)
        == Decide(ideas, Cards(old(currentIndex), old(savedIdeas)), direction)
      ensures Completions() == old(Completions()) + if completed.Some? then [completed.value] else []
    {
      var currentIdea := ideas[currentIndex];
      if direction == Right {
        savedIdeas := savedIdeas + [currentIdea];
      }
      if currentIndex == |ideas| - 1 {
        completed := Some(savedIdeas);
      } else {
        currentIndex := currentIndex + 1;
        completed := None;
      }
      decisions := decisions + [direction];
      assert decisions[..|decisions| - 1] == old(decisions);
    }

    /** The release of a drag with horizontal offset `offsetX`: within the
        threshold nothing changes; beyond it the release is a decision. */
    method HandleDragEnd(offsetX: int) returns (completed: Option<seq<Idea>>)
      requires Valid() && currentIndex < |ideas|
      modifies this
      ensures Valid()
      ensures DragDecision(offsetX).None? ==>
        completed.None? && currentIndex == old(currentIndex) &&
        savedIdeas == old(savedIdeas) && decisions == old(decisions)
      ensures DragDecision(offsetX).Some? ==>
        var d := DragDecision(offsetX).value;
        decisions == old(decisions) + [d] &&
        (Cards(currentIndex, savedIdeas), completed)
          == Decide(ideas, Cards(old(currentIndex), old(savedIdeas)), d)
    {
      var d := DragDecision(offsetX);
      if d.Some? {
        completed := HandleSwipe(d.value);
      } else {
        completed := None;
      }
    }
  }
}
