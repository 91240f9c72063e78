/** Packing rendered rows into Slack sections (`mrkdwnSections` of src/adapters/blocks.ts). A char is one
    UTF-16 code unit; an absent prefix is the empty string, which the source treats alike. */
module Sections {
  import opened Base

  const SECTION_MAX: nat := 3000

  datatype Options = Options(firstPrefix: string, continuationPrefix: string, maxSections: Option<nat>)

  datatype Packed = Sections(texts: seq<string>) | SectionError | BlockError

  // ---------------------------------------------------------------------------------------------
  // The loop
  // ---------------------------------------------------------------------------------------------

  function Beside(prefix: string, line: string): string {
    if prefix == "" then line else prefix + "\n" + line
  }

  /** What remains of the loop from one iteration on. */
  function Continue(o: Options, lines: seq<string>, current: string, done: seq<string>): Packed {
    if lines == [] then
      var all := if current == "" then done else done + [current];
      if o.maxSections.Some? && |all| > o.maxSections.value then BlockError else Sections(all)
    else if |Beside(current, lines[0])| <= SECTION_MAX then
      Continue(o, lines[1..], Beside(current, lines[0]), done)
    else if current == "" || current == o.firstPrefix then SectionError
    else if |Beside(o.continuationPrefix, lines[0])| > SECTION_MAX then SectionError
    else Continue(o, lines[1..], Beside(o.continuationPrefix, lines[0]), done + [current])
  }

  function Rendered(lines: seq<string>, o: Options): Packed {
    if lines == [] then Sections([]) else Continue(o, lines, o.firstPrefix, [])
  }

  method MrkdwnSections(lines: seq<string>, o: Options) returns (r: Packed)
    ensures r == Rendered(lines, o)
  {
    if |lines| == 0 {
      return Sections([]);
    }
    var sections: seq<string> := [];
    var current := o.firstPrefix;
    var i := 0;
    while i < |lines|
      invariant 0 <= i <= |lines|
      invariant Continue(o, lines[i..], current, sections) == Rendered(lines, o)
    {
      var line := lines[i];
      var candidate := if current != "" then current + "\n" + line else line;
      if |candidate| <= SECTION_MAX {
        current := candidate;
      } else {
        if current == "" || current == o.firstPrefix {
          return SectionError;
        }
        sections := sections + [current];
        current := if o.continuationPrefix != "" then o.continuationPrefix + "\n" + line else line;
        if |current| > SECTION_MAX {
          return SectionError;
        }
      }
      assert lines[i + 1..] == lines[i..][1..];
      i := i + 1;
    }
    if current != "" {
      sections := sections + [current];
    }
    if o.maxSections.Some? && |sections| > o.maxSections.value {
      return BlockError;
    }
    return Sections(sections);
  }

  // ---------------------------------------------------------------------------------------------
  // Packings
  // ---------------------------------------------------------------------------------------------

  predicate NonEmptyRows(lines: seq<string>) {
    forall i :: 0 <= i < |lines| ==> lines[i] != ""
  }

  /** The rows of one section under its prefix. */
  function Text(prefix: string, rows: seq<string>): string {
    if rows == [] then prefix else Beside(Text(prefix, rows[..|rows| - 1]), rows[|rows| - 1])
  }

  function Flatten(groups: seq<seq<string>>): seq<string> {
    if groups == [] then [] else groups[0] + Flatten(groups[1..])
  }

  predicate Fits(prefix: string, rows: seq<string>) {
    |Text(prefix, rows)| <= SECTION_MAX
  }

  /** A contiguous division of the rows into non-empty sections, each within the limit: the first under
      `prefix`, the others under `cont`. */
  predicate Packing(prefix: string, cont: string, lines: seq<string>, groups: seq<seq<string>>) {
    && Flatten(groups) == lines
    && forall i :: 0 <= i < |groups| ==> groups[i] != [] && Fits(if i == 0 then prefix else cont, groups[i])
  }

  function Texts(prefix: string, cont: string, groups: seq<seq<string>>): (texts: seq<string>)
    ensures |texts| == |groups|
    ensures forall i :: 0 <= i < |groups| ==> texts[i] == Text(if i == 0 then prefix else cont, groups[i])
    decreases groups
  {
    if groups == [] then [] else [Text(prefix, groups[0])] + Texts(cont, cont, groups[1..])
  }

  // ---------------------------------------------------------------------------------------------
  // Lengths
  // ---------------------------------------------------------------------------------------------

  function Width(rows: seq<string>): nat {
    if rows == [] then 0 else Width(rows[..|rows| - 1]) + |rows[|rows| - 1]| + 1
  }

  lemma {:induction false} WidthOfSplit(a: seq<string>, b: seq<string>)
    ensures Width(a + b) == Width(a) + Width(b)
  {
    if b == [] {
      assert a + b == a;
    } else {
      WidthOfSplit(a, b[..|b| - 1]);
      assert (a + b)[..|a + b| - 1] == a + b[..|b| - 1];
    }
  }

  lemma {:induction false} TextLength(prefix: string, rows: seq<string>)
    requires NonEmptyRows(rows)
    ensures rows == [] || |Text(prefix, rows)| == Width(rows) - 1 + (if prefix == "" then 0 else |prefix| + 1)
    ensures rows == [] || Text(prefix, rows) != ""
  {
    if rows != [] {
      TextLength(prefix, rows[..|rows| - 1]);
    }
  }

  lemma PartNonEmpty(a: seq<string>, b: seq<string>)
    requires NonEmptyRows(a + b)
    ensures NonEmptyRows(a) && NonEmptyRows(b)
  {
    assert forall i :: 0 <= i < |a| ==> a[i] == (a + b)[i];
    assert forall i :: 0 <= i < |b| ==> b[i] == (a + b)[|a| + i];
  }

  /** A section stays within the limit when rows are taken from either end. */
  lemma PartFits(prefix: string, a: seq<string>, b: seq<string>, c: seq<string>)
    requires NonEmptyRows(a + b + c) && b != [] && Fits(prefix, a + b + c)
    ensures Fits(prefix, b)
  {
    WidthOfSplit(a + b, c);
    WidthOfSplit(a, b);
    TextLength(prefix, a + b + c);
    PartNonEmpty(a + b, c);
    PartNonEmpty(a, b);
    TextLength(prefix, b);
  }

  // ---------------------------------------------------------------------------------------------
  // The greedy packing
  // ---------------------------------------------------------------------------------------------

  /** First fit with `open` already placed in the current section. */
  function Greedy(prefix: string, cont: string, open: seq<string>, rest: seq<string>): (r: Option<seq<seq<string>>>)
    ensures r.Some? && open + rest != [] ==> r.value != []
    decreases rest
  {
    if rest == [] then Some(if open == [] then [] else [open])
    else if Fits(prefix, open + [rest[0]]) then Greedy(prefix, cont, open + [rest[0]], rest[1..])
    else if open == [] || !Fits(cont, [rest[0]]) then None
    else
      match Greedy(cont, cont, [rest[0]], rest[1..])
      case None => None
      case Some(groups) => Some([open] + groups)
  }

  lemma {:induction false} GreedyIsPacking(prefix: string, cont: string, open: seq<string>, rest: seq<string>)
    requires open == [] || Fits(prefix, open)
    requires Greedy(prefix, cont, open, rest).Some?
    ensures Packing(prefix, cont, open + rest, Greedy(prefix, cont, open, rest).value)
    decreases rest
  {
    hide Fits;
    var groups := Greedy(prefix, cont, open, rest).value;
    if rest == [] {
      assert open + rest == open;
      if open != [] {
        assert groups == [open] && groups[1..] == [] && Flatten(groups) == open + Flatten([]);
      }
    } else if Fits(prefix, open + [rest[0]]) {
      GreedyIsPacking(prefix, cont, open + [rest[0]], rest[1..]);
      assert open + rest == open + [rest[0]] + rest[1..];
    } else {
      GreedyIsPacking(cont, cont, [rest[0]], rest[1..]);
      assert rest == [rest[0]] + rest[1..];
      assert groups[1..] == Greedy(cont, cont, [rest[0]], rest[1..]).value;
    }
  }

  /** Rows dropped from the front never need more sections. */
  lemma {:induction false} DropRows(cont: string, lines: seq<string>, groups: seq<seq<string>>, m: nat) returns (fewer: seq<seq<string>>)
    requires NonEmptyRows(lines) && Packing(cont, cont, lines, groups) && m <= |lines|
    ensures Packing(cont, cont, lines[m..], fewer) && |fewer| <= |groups|
    decreases |groups|
  {
    if groups == [] {
      fewer := [];
    } else {
      var g := groups[0];
      assert lines == g + Flatten(groups[1..]);
      assert lines[|g|..] == Flatten(groups[1..]);
      if m >= |g| {
        fewer := DropRows(cont, lines[|g|..], groups[1..], m - |g|);
        assert lines[|g|..][m - |g|..] == lines[m..];
      } else {
        fewer := [g[m..]] + groups[1..];
        assert g == g[..m] + g[m..] + [];
        PartFits(cont, g[..m], g[m..], []);
        assert lines[m..] == g[m..] + lines[|g|..];
        assert fewer[1..] == groups[1..];
      }
    }
  }

  /** No packing uses fewer sections than first fit, and first fit fails only when there is none. */
  lemma {:induction false} GreedyIsOptimal(prefix: string, cont: string, open: seq<string>, rest: seq<string>, other: seq<seq<string>>)
    requires NonEmptyRows(open + rest) && Packing(prefix, cont, open + rest, other)
    ensures Greedy(prefix, cont, open, rest).Some? && |Greedy(prefix, cont, open, rest).value| <= |other|
    decreases rest
  {
    hide Fits;
    if rest == [] {
      assert open + rest == open;
    } else if Fits(prefix, open + [rest[0]]) {
      assert open + rest == open + [rest[0]] + rest[1..];
      GreedyIsOptimal(prefix, cont, open + [rest[0]], rest[1..], other);
    } else {
      var tail := RestPacking(prefix, cont, open, rest, other);
      PartNonEmpty(open, rest);
      assert rest == [rest[0]] + rest[1..];
      GreedyIsOptimal(cont, cont, [rest[0]], rest[1..], tail);
    }
  }

  /** When the next row does not fit, any packing closes its first section no later than first fit does, so the
      remaining rows have a packing with one section fewer. */
  lemma RestPacking(prefix: string, cont: string, open: seq<string>, rest: seq<string>, other: seq<seq<string>>)
    returns (tail: seq<seq<string>>)
    requires NonEmptyRows(open + rest) && rest != [] && Packing(prefix, cont, open + rest, other)
    requires !Fits(prefix, open + [rest[0]])
    ensures open != [] && Fits(cont, [rest[0]])
    ensures Packing(cont, cont, rest, tail) && |tail| < |other|
  {
    hide Fits;
    var lines := open + rest;
    var g := other[0];
    assert lines == g + Flatten(other[1..]);
    assert lines[|g|..] == Flatten(other[1..]);
    PartNonEmpty(g, lines[|g|..]);
    PartNonEmpty(open, rest);
    if |g| > |open| {
      assert g == [] + (open + [rest[0]]) + g[|open| + 1..];
      PartFits(prefix, [], open + [rest[0]], g[|open| + 1..]);
    }
    tail := DropRows(cont, lines[|g|..], other[1..], |open| - |g|);
    assert lines[|g|..][|open| - |g|..] == rest;
    var t := tail[0];
    assert rest == t + Flatten(tail[1..]);
    PartNonEmpty(t, Flatten(tail[1..]));
    assert t == [] + [rest[0]] + t[1..];
    PartFits(cont, [], [rest[0]], t[1..]);
  }

  // ---------------------------------------------------------------------------------------------
  // What the loop returns
  // ---------------------------------------------------------------------------------------------

  predicate WithinCap(o: Options, n: nat) {
    o.maxSections.Some? ==> n <= o.maxSections.value
  }

  /** A continuation section that must be closed reads exactly as the first prefix: the loop then takes it for
      a prefix without rows. */
  predicate Clash(o: Options, prefix: string, groups: seq<seq<string>>) {
    exists i :: 0 <= i < |groups| - 1 && Text(if i == 0 then prefix else o.continuationPrefix, groups[i]) == o.firstPrefix
  }

  /** What the loop makes of a first-fit division of the rows still to place. */
  function Outcome(o: Options, prefix: string, g: Option<seq<seq<string>>>, done: seq<string>): Packed {
    if g.None? || Clash(o, prefix, g.value) then SectionError
    else if !WithinCap(o, |done| + |g.value|) then BlockError
    else Sections(done + Texts(prefix, o.continuationPrefix, g.value))
  }

  lemma OutcomeOfClosed(o: Options, prefix: string, open: seq<string>, tail: seq<seq<string>>, done: seq<string>)
    requires tail != []
    ensures Outcome(o, prefix, Some([open] + tail), done) ==
      if Text(prefix, open) == o.firstPrefix then SectionError
      else Outcome(o, o.continuationPrefix, Some(tail), done + [Text(prefix, open)])
  {
    hide Clash, Texts, Text;
    ClosedSection(o, prefix, open, tail);
    var cont := o.continuationPrefix;
    assert done + [Text(prefix, open)] + Texts(cont, cont, tail) == done + ([Text(prefix, open)] + Texts(cont, cont, tail));
  }

  lemma ClosedSection(o: Options, prefix: string, open: seq<string>, tail: seq<seq<string>>)
    requires tail != []
    ensures var groups := [open] + tail;
      && (Clash(o, prefix, groups) <==> Text(prefix, open) == o.firstPrefix || Clash(o, o.continuationPrefix, tail))
      && Texts(prefix, o.continuationPrefix, groups) == [Text(prefix, open)] + Texts(o.continuationPrefix, o.continuationPrefix, tail)
  {
    var groups := [open] + tail;
    assert groups[1..] == tail;
    if Clash(o, prefix, groups) {
      var i :| 0 <= i < |groups| - 1 && Text(if i == 0 then prefix else o.continuationPrefix, groups[i]) == o.firstPrefix;
      assert i > 0 ==> tail[i - 1] == groups[i];
    }
    if Clash(o, o.continuationPrefix, tail) {
      var i :| 0 <= i < |tail| - 1 && Text(if i == 0 then o.continuationPrefix else o.continuationPrefix, tail[i]) == o.firstPrefix;
      assert groups[i + 1] == tail[i];
    }
    assert groups[0] == open;
  }

  lemma OutcomeOfLast(o: Options, prefix: string, open: seq<string>, done: seq<string>)
    requires Text(prefix, open) != ""
    ensures Outcome(o, prefix, Some([open]), done) == Continue(o, [], Text(prefix, open), done)
  {
    assert Texts(prefix, o.continuationPrefix, [open]) == [Text(prefix, open)];
  }

  lemma TextGrows(prefix: string, open: seq<string>, line: string)
    ensures Text(prefix, open + [line]) == Beside(Text(prefix, open), line)
    ensures Text(prefix, [line]) == Beside(prefix, line)
  {
    assert (open + [line])[..|open|] == open && [line][..0] == [];
  }

  /** The loop is first fit over rows. */
  lemma {:induction false} LoopIsGreedy(o: Options, prefix: string, open: seq<string>, rest: seq<string>, done: seq<string>)
    requires NonEmptyRows(open + rest) && (open == [] ==> prefix == o.firstPrefix) && open + rest != []
    ensures Continue(o, rest, Text(prefix, open), done) == Outcome(o, prefix, Greedy(prefix, o.continuationPrefix, open, rest), done)
    decreases rest
  {
    hide Outcome, NonEmptyRows, Text, Beside;
    var cont := o.continuationPrefix;
    PartNonEmpty(open, rest);
    TextLength(prefix, open);
    if rest == [] {
      OutcomeOfLast(o, prefix, open, done);
    } else {
      TextGrows(prefix, open, rest[0]);
      TextGrows(cont, open, rest[0]);
      assert open + [rest[0]] + rest[1..] == open + rest && [rest[0]] + rest[1..] == rest;
      if Fits(prefix, open + [rest[0]]) {
        LoopIsGreedy(o, prefix, open + [rest[0]], rest[1..], done);
      } else if open != [] && Fits(cont, [rest[0]]) {
        LoopIsGreedy(o, cont, [rest[0]], rest[1..], done + [Text(prefix, open)]);
        var tail := Greedy(cont, cont, [rest[0]], rest[1..]);
        if tail.Some? {
          OutcomeOfClosed(o, prefix, open, tail.value, done);
        } else {
          OutcomeOfNone(o, cont, done + [Text(prefix, open)]);
          OutcomeOfNone(o, prefix, done);
        }
      } else {
        OutcomeOfNone(o, prefix, done);
        TextOfNone(prefix);
      }
    }
  }

  lemma OutcomeOfNone(o: Options, prefix: string, done: seq<string>)
    ensures Outcome(o, prefix, None, done) == SectionError
  {
  }

  lemma TextOfNone(prefix: string)
    ensures Text(prefix, []) == prefix
  {
  }

  /** The rows come back complete, in order, in sections within the limit, and as few of them as possible; the
      loop succeeds exactly when some packing within the cap exists and its own does not clash. */
  lemma RenderedExact(lines: seq<string>, o: Options)
    requires NonEmptyRows(lines) && lines != []
    ensures var g := Greedy(o.firstPrefix, o.continuationPrefix, [], lines); var r := Rendered(lines, o);
      && (r.Sections? <==>
           && (exists p :: Packing(o.firstPrefix, o.continuationPrefix, lines, p) && WithinCap(o, |p|))
           && !(g.Some? && Clash(o, o.firstPrefix, g.value)))
      && (r.Sections? ==>
           && g.Some? && Packing(o.firstPrefix, o.continuationPrefix, lines, g.value)
           && r.texts == Texts(o.firstPrefix, o.continuationPrefix, g.value)
           && (forall p :: Packing(o.firstPrefix, o.continuationPrefix, lines, p) ==> |r.texts| <= |p|))
      && (r.BlockError? ==> forall p :: Packing(o.firstPrefix, o.continuationPrefix, lines, p) ==> !WithinCap(o, |p|))
  {
    var first, cont := o.firstPrefix, o.continuationPrefix;
    assert [] + lines == lines;
    LoopIsGreedy(o, first, [], lines, []);
    var g := Greedy(first, cont, [], lines);
    if g.Some? {
      GreedyIsPacking(first, cont, [], lines);
    }
    forall p | Packing(first, cont, lines, p) ensures g.Some? && |g.value| <= |p| {
      GreedyIsOptimal(first, cont, [], lines, p);
    }
    assert [] + Texts(first, cont, if g.Some? then g.value else []) == Texts(first, cont, if g.Some? then g.value else []);
    hide Greedy, Packing, Clash, Texts, Continue;
  }

  /** What a continuation section can begin with. */
  predicate SharesStart(o: Options, lines: seq<string>) {
    if o.continuationPrefix != "" then o.continuationPrefix <= o.firstPrefix
    else exists i :: 0 <= i < |lines| && lines[i] <= o.firstPrefix
  }

  lemma {:induction false} TextStarts(prefix: string, rows: seq<string>)
    requires rows != []
    ensures (if prefix == "" then rows[0] else prefix) <= Text(prefix, rows)
  {
    assert Text(prefix, rows) == Beside(Text(prefix, rows[..|rows| - 1]), rows[|rows| - 1]);
    if |rows| > 1 {
      TextStarts(prefix, rows[..|rows| - 1]);
    }
  }

  lemma {:induction false} RowIsInput(groups: seq<seq<string>>, i: nat, j: nat)
    requires i < |groups| && j < |groups[i]|
    ensures groups[i][j] in Flatten(groups)
  {
    if i > 0 {
      RowIsInput(groups[1..], i - 1, j);
    }
  }

  /** A caller can rule the clash out beforehand: it needs a first prefix that begins with the continuation
      prefix or, without one, with some row. */
  lemma ClashNeedsSharedStart(o: Options, lines: seq<string>, groups: seq<seq<string>>)
    requires NonEmptyRows(lines) && Packing(o.firstPrefix, o.continuationPrefix, lines, groups)
    requires o.firstPrefix == "" || !SharesStart(o, lines)
    ensures !Clash(o, o.firstPrefix, groups)
  {
    hide Fits;
    forall i | 0 <= i < |groups| - 1 ensures Text(if i == 0 then o.firstPrefix else o.continuationPrefix, groups[i]) != o.firstPrefix {
      forall j | 0 <= j < |groups[i]| ensures groups[i][j] != "" {
        RowIsInput(groups, i, j);
      }
      TextLength(o.firstPrefix, groups[i]);
      TextLength(o.continuationPrefix, groups[i]);
      TextStarts(o.continuationPrefix, groups[i]);
      RowIsInput(groups, i, 0);
      if groups[i][0] <= o.firstPrefix {
        assert exists k :: 0 <= k < |lines| && lines[k] <= o.firstPrefix;
      }
      if i == 0 {
        FirstSectionIsLonger(o.firstPrefix, groups[0]);
      }
    }
  }

  lemma FirstSectionIsLonger(prefix: string, rows: seq<string>)
    requires rows != [] && NonEmptyRows(rows)
    ensures Text(prefix, rows) != prefix
  {
    TextLength(prefix, rows);
    assert Width(rows) >= |rows[|rows| - 1]| + 1;
  }

  function Repeat(c: char, n: nat): (s: string)
    ensures |s| == n && (n > 0 ==> s != "")
  {
    seq(n, i => c)
  }

  /** The clash is real: three rows that pack into three sections are refused, because the middle section's
      only row reads as the first prefix. */
  lemma ClashExample()
    ensures var o := Options("P", "", None); var lines := [Repeat('a', 2998), "P", Repeat('b', 2999)];
      && Packing("P", "", lines, [[lines[0]], [lines[1]], [lines[2]]])
      && Rendered(lines, o) == SectionError
  {
    var o := Options("P", "", None);
    var lines := [Repeat('a', 2998), "P", Repeat('b', 2999)];
    var p := [[lines[0]], [lines[1]], [lines[2]]];
    assert Flatten(p) == lines by {
      assert p[1..] == [[lines[1]], [lines[2]]] && p[1..][1..] == [[lines[2]]] && p[1..][1..][1..] == [];
      assert Flatten(p[1..][1..]) == [lines[2]];
    }
    assert [lines[0]][..0] == [] && [lines[1]][..0] == [] && [lines[2]][..0] == [];
    assert Text("", []) == "" && Text("P", []) == "P";
    assert Text("P", [lines[0]]) == Beside("P", lines[0]) && Text("", [lines[1]]) == "P" && Text("", [lines[2]]) == lines[2];
    assert p[0] == [lines[0]] && p[1] == [lines[1]] && p[2] == [lines[2]];
    assert lines[1..] == ["P", lines[2]] && lines[1..][1..] == [lines[2]];
    var c1 := Beside("P", lines[0]);
    assert |c1| == 3000 && c1 != "P";
    assert Rendered(lines, o) == Continue(o, lines[1..], c1, []);
    assert |Beside(c1, "P")| == 3002;
    assert Continue(o, lines[1..], c1, []) == Continue(o, [lines[2]], "P", [c1]);
    assert |Beside("P", lines[2])| == 3001;
  }

  /** Why rows must be non-empty: at the start of an unprefixed section an empty row leaves no trace. */
  lemma EmptyRowIsLost()
    ensures Rendered([""], Options("", "", None)) == Sections([])
    ensures Rendered(["", "a"], Options("", "", None)) == Rendered(["a"], Options("", "", None)) == Sections(["a"])
  {
    var o := Options("", "", None);
    assert ["", "a"][1..] == ["a"] && ["a"][1..] == [] && [""][1..] == [];
    assert Continue(o, ["", "a"], "", []) == Continue(o, ["a"], "", []);
    assert Continue(o, ["a"], "", []) == Continue(o, [], "a", []);
  }
}
