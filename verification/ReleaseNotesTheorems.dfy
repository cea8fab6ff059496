/** What lifting and splitting keep of a section. */
module ReleaseNotesTheorems {
  import opened Wrappers
  import opened ReleaseNotes

  /** The lines with something on them. */
  function Content(lines: Lines): Lines {
    if lines == [] then []
    else Content(lines[..|lines| - 1]) + if Blank(lines[|lines| - 1]) then [] else [lines[|lines| - 1]]
  }

  lemma {:induction false} ContentOfSum(a: Lines, b: Lines)
    ensures Content(a + b) == Content(a) + Content(b)
  {
    if b == [] {
      assert a + b == a;
    } else {
      assert (a + b)[..|a + b| - 1] == a + b[..|b| - 1];
      ContentOfSum(a, b[..|b| - 1]);
    }
  }

  lemma {:induction false} ContentOfTrimmed(lines: Lines)
    ensures Content(Trimmed(lines)) == Content(lines)
  {
    if lines != [] && Blank(lines[|lines| - 1]) {
      ContentOfTrimmed(lines[..|lines| - 1]);
    }
  }

  lemma {:induction false} ContentOfStripped(lines: Lines)
    ensures Content(Stripped(lines)) == Content(lines)
    decreases |lines|
  {
    if lines != [] && lines[0] == "" {
      assert lines == [lines[0]] + lines[1..];
      ContentOfSum([lines[0]], lines[1..]);
      assert Content([lines[0]]) == [] by { assert [lines[0]][..0] == []; }
      ContentOfStripped(lines[1..]);
    } else if lines != [] && lines[|lines| - 1] == "" {
      ContentOfStripped(lines[..|lines| - 1]);
    }
  }

  lemma ContentOfCut(lines: Lines, n: nat)
    requires n <= |lines|
    ensures Content(lines) == Content(lines[..n]) + Content(lines[n..])
  {
    hide Content;
    var front, back := lines[..n], lines[n..];
    ContentOfSum(front, back);
    assert lines == front + back;
  }

  lemma CutOfTail(lines: Lines, i: nat, j: nat)
    requires i <= j <= |lines|
    ensures lines[i..][..j - i] == lines[i..j] && lines[i..][j - i..] == lines[j..]
  {
  }

  lemma Regroup(a: Lines, b: Lines, c: Lines, d: Lines)
    ensures a + (b + (c + d)) == a + b + c + d
    ensures a + b + [] + (c + d) == a + b + c + d
    ensures b == [] ==> a + b + c + d == a + c + b + d
  {
  }

  lemma ContentOfParts(lines: Lines, i: nat, j: nat, k: nat)
    requires i <= j <= k <= |lines|
    ensures Content(lines) == Content(lines[..i]) + Content(lines[i..j]) + Content(lines[j..k]) + Content(lines[k..])
  {
    hide Content;
    ContentOfCut(lines, i);
    ContentOfCut(lines[i..], j - i);
    CutOfTail(lines, i, j);
    ContentOfCut(lines[j..], k - j);
    CutOfTail(lines, j, k);
    Regroup(Content(lines[..i]), Content(lines[i..j]), Content(lines[j..k]), Content(lines[k..]));
  }

  lemma ContentOfReordered(lines: Lines, first: nat, start: nat, end: nat)
    requires first <= start <= end <= |lines|
    ensures Content(Reordered(lines, first, start, end))
            == Content(lines[..first]) + Content(lines[start..end]) + Content(lines[first..start])
                + Content(lines[end..])
  {
    var lead, between, block, after := lines[..first], lines[first..start], lines[start..end], lines[end..];
    assert Content([""]) == [] by { assert [""][..0] == []; }
    hide Content, Trimmed, Stripped, Blank;
    ContentOfStripped(lead + Trimmed(block) + [""] + Trimmed(between + after));
    ContentOfSum(lead + Trimmed(block) + [""], Trimmed(between + after));
    ContentOfSum(lead + Trimmed(block), [""]);
    ContentOfSum(lead, Trimmed(block));
    ContentOfTrimmed(block);
    ContentOfTrimmed(between + after);
    ContentOfSum(between, after);
    Regroup(Content(lead), Content(block), Content(between), Content(after));
  }

  /**
    The four parts of a section and where they end up: lead, action category, what stood between the first heading
    and it, what followed it. Each keeps its own order and loses only blank lines.
   */
  lemma LiftKeepsContent(lines: Lines, m: Marks)
    requires Lift(lines, m).Lifted? && NextAction(lines, 0, m) < |lines|
    ensures var first, start := NextHeading(lines, 0, m), NextAction(lines, 0, m);
            var end := NextHeading(lines, start + 1, m);
            && first <= start
            && Content(lines) == Content(lines[..first]) + Content(lines[first..start]) + Content(lines[start..end])
                + Content(lines[end..])
            && Content(Lift(lines, m).lines)
               == Content(lines[..first]) + Content(lines[start..end]) + Content(lines[first..start])
                   + Content(lines[end..])
  {
    var first, start := NextHeading(lines, 0, m), NextAction(lines, 0, m);
    var end := NextHeading(lines, start + 1, m);
    assert Heading(lines[start], m);
    assert start == first ==> Content(lines[first..start]) == [];
    ContentOfParts(lines, first, start, end);
    hide Content, Reordered, NextHeading, NextAction, AllBlank, Heading, Action;
    if start == first {
      Regroup(Content(lines[..first]), Content(lines[first..start]), Content(lines[start..end]), Content(lines[end..]));
    } else {
      ContentOfReordered(lines, first, start, end);
    }
  }

  /** Stripping what begins and ends in lines with something on them takes only the front of the lead. */
  lemma {:induction false} StrippedFront(lead: Lines, x: Lines) returns (n: nat)
    requires x != [] && !Blank(x[0]) && !Blank(x[|x| - 1])
    ensures n <= |lead| && Stripped(lead + x) == lead[n..] + x
    ensures (forall k | 0 <= k < n :: lead[k] == "") && (n < |lead| ==> lead[n] != "")
  {
    if lead == [] {
      assert lead + x == x;
      n := 0;
    } else if lead[0] == "" {
      assert (lead + x)[1..] == lead[1..] + x;
      n := StrippedFront(lead[1..], x);
      n := n + 1;
    } else {
      n := 0;
    }
  }

  /** What a lift that moves the category comes to: lead, block, empty line, rest. */
  ghost predicate Shaped(r: Lines, lead: Lines, block: Lines, rest: Lines, m: Marks) {
    && r == lead + block + [""] + rest
    && (forall k | 0 <= k < |lead| :: !Heading(lead[k], m))
    && block != [] && Action(block[0], m) && (forall k | 1 <= k < |block| :: !Heading(block[k], m))
    && (exists k :: 1 <= k < |block| && !Blank(block[k]))
    && rest != [] && Heading(rest[0], m)
  }

  lemma TrimmedBlock(lines: Lines, start: nat, end: nat, m: Marks)
    requires start < end <= |lines| && Action(lines[start], m) && !AllBlank(lines[start + 1..end])
    requires forall k | start < k < end :: !Heading(lines[k], m)
    ensures var block := Trimmed(lines[start..end]);
            && block != [] && block[0] == lines[start] && !Blank(block[|block| - 1])
            && (forall k | 1 <= k < |block| :: !Heading(block[k], m))
            && exists k :: 1 <= k < |block| && !Blank(block[k])
  {
  }

  lemma LeadIsKept(front: Lines, x: Lines, m: Marks) returns (lead: Lines)
    requires x != [] && !Blank(x[0]) && !Blank(x[|x| - 1]) && forall k | 0 <= k < |front| :: !Heading(front[k], m)
    ensures Stripped(front + x) == lead + x && forall k | 0 <= k < |lead| :: !Heading(lead[k], m)
  {
    var n := StrippedFront(front, x);
    lead := front[n..];
  }

  lemma TrimmedRest(lines: Lines, first: nat, start: nat, end: nat)
    requires first < start <= end <= |lines| && !Blank(lines[first])
    ensures var rest := Trimmed(lines[first..start] + lines[end..]);
            rest != [] && rest[0] == lines[first] && !Blank(rest[|rest| - 1])
  {
    assert (lines[first..start] + lines[end..])[0] == lines[first];
  }

  lemma ReorderedShape(lines: Lines, first: nat, start: nat, end: nat, m: Marks)
        returns (lead: Lines, block: Lines, rest: Lines)
    requires first < start < end <= |lines| && Action(lines[start], m) && !AllBlank(lines[start + 1..end])
    requires Heading(lines[first], m) && !Blank(lines[first]) && !Blank(lines[start])
    requires forall k | 0 <= k < first || start < k < end :: !Heading(lines[k], m)
    ensures Shaped(Reordered(lines, first, start, end), lead, block, rest, m)
  {
    hide Blank, Heading, Trimmed, Stripped, AllBlank, Action;
    TrimmedBlock(lines, start, end, m);
    TrimmedRest(lines, first, start, end);
    block := Trimmed(lines[start..end]);
    rest := Trimmed(lines[first..start] + lines[end..]);
    var x := block + [""] + rest;
    assert x[0] == block[0] && x[|x| - 1] == rest[|rest| - 1];
    lead := LeadIsKept(lines[..first], x, m);
    assert lines[..first] + block + [""] + rest == lines[..first] + x;
    assert lead + x == lead + block + [""] + rest;
  }

  lemma LiftedShape(lines: Lines, m: Marks) returns (lead: Lines, block: Lines, rest: Lines)
    requires Sane(m) && Lift(lines, m).Lifted?
    requires NextHeading(lines, 0, m) < NextAction(lines, 0, m) < |lines|
    ensures Shaped(Lift(lines, m).lines, lead, block, rest, m)
  {
    var first, start := NextHeading(lines, 0, m), NextAction(lines, 0, m);
    var end := NextHeading(lines, start + 1, m);
    lead, block, rest := ReorderedShape(lines, first, start, end, m);
  }

  lemma ShapedLines(r: Lines, lead: Lines, block: Lines, rest: Lines, m: Marks)
    requires Shaped(r, lead, block, rest, m) && !Heading("", m)
    ensures var s, t := |lead|, |lead| + |block| + 1;
            && t < |r| && Action(r[s], m) && Heading(r[t], m)
            && (forall k | 0 <= k < s || s < k < t :: !Heading(r[k], m))
            && exists k :: s < k < t && !Blank(r[k])
  {
    hide Blank;
    var s, t := |lead|, |lead| + |block| + 1;
    forall k | 0 <= k < |r|
      ensures r[k] == if k < s then lead[k] else if k < t - 1 then block[k - s] else if k == t - 1 then ""
          else rest[k - t]
    {
    }
    var k :| 1 <= k < |block| && !Blank(block[k]);
    assert !Blank(r[s + k]);
  }

  /** A section whose first heading is the action category, with something under it, stays as it is. */
  lemma ActionFirstStays(r: Lines, s: nat, t: nat, m: Marks)
    requires s < t < |r| && Action(r[s], m) && Heading(r[t], m)
    requires forall k | 0 <= k < s || s < k < t :: !Heading(r[k], m)
    requires exists k :: s < k < t && !Blank(r[k])
    ensures NextAction(r, 0, m) == NextHeading(r, 0, m) < |r| && Lift(r, m) == Lifted(r)
  {
  }

  /** The action category comes out first, and lifting again changes nothing. */
  lemma LiftSettles(lines: Lines, m: Marks)
    requires Sane(m) && Lift(lines, m).Lifted?
    ensures var r := Lift(lines, m).lines;
            && (NextAction(lines, 0, m) < |lines| ==> NextAction(r, 0, m) == NextHeading(r, 0, m) < |r|)
            && Lift(r, m) == Lifted(r)
  {
    var first, start := NextHeading(lines, 0, m), NextAction(lines, 0, m);
    if start < |lines| {
      assert Heading(lines[start], m);
      if first != start {
        var lead, block, rest := LiftedShape(lines, m);
        assert Blank("");
        ShapedLines(Lift(lines, m).lines, lead, block, rest, m);
        ActionFirstStays(Lift(lines, m).lines, |lead|, |lead| + |block| + 1, m);
      }
    }
  }

  /** Under the heading at i there is nothing but blank lines up to the next heading or the end. */
  predicate NothingUnder(lines: Lines, i: nat, m: Marks)
    requires i < |lines|
  {
    forall j | i < j < |lines| && !Blank(lines[j]) :: exists k | i < k <= j :: Heading(lines[k], m)
  }

  predicate FirstAction(lines: Lines, i: nat, m: Marks) {
    i < |lines| && Action(lines[i], m) && forall j | 0 <= j < i :: !Action(lines[j], m)
  }

  /** A section is refused exactly when its action category has nothing under it, and it is named in the error. */
  lemma LiftRefusesIff(lines: Lines, m: Marks, heading: string)
    requires Sane(m)
    ensures Lift(lines, m) == EmptyAction(heading)
            <==> exists i: nat :: FirstAction(lines, i, m) && NothingUnder(lines, i, m) && lines[i] == heading
  {
    var start := NextAction(lines, 0, m);
    forall i: nat | FirstAction(lines, i, m) ensures i == start {
    }
    if start < |lines| {
      assert FirstAction(lines, start, m);
      EmptyIsNothingUnder(lines, start, m);
    }
    hide NothingUnder, AllBlank, Blank, Action, Heading;
  }

  lemma EmptyIsNothingUnder(lines: Lines, i: nat, m: Marks)
    requires i < |lines|
    ensures NothingUnder(lines, i, m) <==> AllBlank(lines[i + 1..NextHeading(lines, i + 1, m)])
  {
    var end := NextHeading(lines, i + 1, m);
    hide Blank, Heading, NextHeading;
    forall j | i < j < end ensures lines[j] in lines[i + 1..end] {
      assert lines[i + 1..end][j - i - 1] == lines[j];
    }
  }

  /** Stripping takes the empty lines off both ends and nothing else. */
  lemma {:induction false} StrippedIs(lines: Lines) returns (i: nat, j: nat)
    ensures i <= j <= |lines| && Stripped(lines) == lines[i..j]
    ensures forall k | 0 <= k < i || j <= k < |lines| :: lines[k] == ""
    ensures i < j ==> lines[i] != "" && lines[j - 1] != ""
    decreases |lines|
  {
    i, j := 0, |lines|;
    if lines != [] && lines[0] == "" {
      i, j := StrippedIs(lines[1..]);
      i, j := i + 1, j + 1;
      assert forall k | 0 < k < |lines| :: lines[k] == lines[1..][k - 1];
    } else if lines != [] && lines[|lines| - 1] == "" {
      i, j := StrippedIs(lines[..|lines| - 1]);
    }
  }

  /**
    The lead without the empty lines in front, the lines from start to end, one empty line, and the rest; the category
    and the rest have no blank lines at the end, and each is as it was.
   */
  predicate MovedUp(r: Lines, lines: Lines, first: nat, start: nat, end: nat, n: nat) {
    && n <= first <= start <= end <= |lines|
    && (forall k | 0 <= k < n :: lines[k] == "") && (n < first ==> lines[n] != "")
    && r == lines[n..first] + Trimmed(lines[start..end]) + [""] + Trimmed(lines[first..start] + lines[end..])
  }

  /** A category that is lifted is moved up behind the lead. */
  lemma LiftedIs(lines: Lines, m: Marks) returns (n: nat)
    requires Sane(m) && Lift(lines, m).Lifted?
    requires NextHeading(lines, 0, m) < NextAction(lines, 0, m) < |lines|
    ensures var first, start := NextHeading(lines, 0, m), NextAction(lines, 0, m);
            MovedUp(Lift(lines, m).lines, lines, first, start, NextHeading(lines, start + 1, m), n)
  {
    var first, start := NextHeading(lines, 0, m), NextAction(lines, 0, m);
    var end := NextHeading(lines, start + 1, m);
    LiftMoves(lines, m);
    hide Lift, AllBlank, Reordered, MovedUp, Sane, NextAction, NextHeading;
    HeadingHasText(lines[first], m);
    HeadingHasText(lines[start], m);
    n := ReorderedIs(lines, first, start, end, m);
  }

  lemma LiftMoves(lines: Lines, m: Marks)
    requires Lift(lines, m).Lifted? && NextHeading(lines, 0, m) < NextAction(lines, 0, m) < |lines|
    ensures var first, start := NextHeading(lines, 0, m), NextAction(lines, 0, m);
            var end := NextHeading(lines, start + 1, m);
            Lift(lines, m).lines == Reordered(lines, first, start, end) && !AllBlank(lines[start + 1..end])
  {
    hide AllBlank, Reordered, NextAction, NextHeading;
  }

  lemma HeadingHasText(line: string, m: Marks)
    requires Sane(m) && Heading(line, m)
    ensures !Blank(line)
  {
  }

  lemma ReorderedIs(lines: Lines, first: nat, start: nat, end: nat, m: Marks) returns (n: nat)
    requires first < start < end <= |lines| && Action(lines[start], m) && !AllBlank(lines[start + 1..end])
    requires !Blank(lines[first]) && !Blank(lines[start])
    requires forall k | start < k < end :: !Heading(lines[k], m)
    ensures MovedUp(Reordered(lines, first, start, end), lines, first, start, end, n)
  {
    hide Blank, Heading, Trimmed, Stripped, AllBlank, Action;
    TrimmedBlock(lines, start, end, m);
    TrimmedRest(lines, first, start, end);
    var block, rest := Trimmed(lines[start..end]), Trimmed(lines[first..start] + lines[end..]);
    var x := block + [""] + rest;
    assert x[0] == block[0] && x[|x| - 1] == rest[|rest| - 1];
    n := StrippedFront(lines[..first], x);
    assert lines[..first] + block + [""] + rest == lines[..first] + x;
    assert lines[..first][n..] == lines[n..first];
    assert lines[n..first] + x == lines[n..first] + block + [""] + rest;
  }

  function AllBullets(categories: seq<Category>): seq<Lines> {
    if categories == [] then []
    else AllBullets(categories[..|categories| - 1]) + categories[|categories| - 1].bullets
  }

  function Joined(bullets: seq<Lines>): Lines {
    if bullets == [] then [] else Joined(bullets[..|bullets| - 1]) + bullets[|bullets| - 1]
  }

  /** Every line the state holds, in order: the lead, the bullets, the open bullet. */
  function Flat(s: State): Lines {
    s.lead + Joined(AllBullets(s.categories)) + if s.current.Some? then s.current.value else []
  }

  /** An open bullet stands in a category and begins with its own line. */
  ghost predicate Formed(s: State) {
    && (s.categories == [] ==> s.current.None?)
    && (s.current.Some? ==> s.current.value != [] && !Blank(s.current.value[0]))
  }

  lemma {:induction false} AfterIsFormed(lines: Lines, m: Marks)
    requires Sane(m)
    ensures Formed(After(lines, m))
  {
    if lines != [] {
      AfterIsFormed(lines[..|lines| - 1], m);
    }
  }

  /** Whether a bullet is open after these lines: nothing but blank or indented lines since its first one. */
  predicate Open(lines: Lines, m: Marks) {
    lines != [] &&
    var last, before := lines[|lines| - 1], lines[..|lines| - 1];
    !Heading(last, m) && InCategory(before, m)
        && (m.bullet(last) || ((Blank(last) || Indented(last)) && Open(before, m)))
  }

  predicate InCategory(lines: Lines, m: Marks) {
    exists k | 0 <= k < |lines| :: Heading(lines[k], m)
  }

  /** Whether the split keeps the last of these lines. */
  predicate Keeps(lines: Lines, m: Marks)
    requires lines != []
  {
    var last, before := lines[|lines| - 1], lines[..|lines| - 1];
    !Heading(last, m) && (!InCategory(before, m) || m.bullet(last)
        || ((Blank(last) || Indented(last)) && Open(before, m)))
  }

  /** The lines with something on them that the split keeps. */
  function Kept(lines: Lines, m: Marks): Lines {
    if lines == [] then []
    else
      var last, before := lines[|lines| - 1], lines[..|lines| - 1];
      Kept(before, m) + if Keeps(lines, m) && !Blank(last) then [last] else []
  }

  lemma ClosedFlat(s: State)
    requires Formed(s)
    ensures Content(Flat(Close(s))) == Content(Flat(s))
    ensures Flat(Close(s)) <= Flat(s)
  {
    if s.current.Some? {
      var n := |s.categories| - 1;
      var r, bullet := Close(s), Trimmed(s.current.value);
      var old_, new_ := s.categories[n].bullets, r.categories[n].bullets;
      assert r.categories[..n] == s.categories[..n];
      assert AllBullets(r.categories) == AllBullets(s.categories) + [bullet];
      assert (AllBullets(s.categories) + [bullet])[..|AllBullets(s.categories)|] == AllBullets(s.categories);
      var held := s.lead + Joined(AllBullets(s.categories));
      assert Flat(r) == held + bullet;
      ContentOfSum(held, bullet);
      ContentOfSum(held, s.current.value);
      ContentOfTrimmed(s.current.value);
    }
  }

  lemma {:induction false} AfterTracks(lines: Lines, m: Marks)
    ensures var s := After(lines, m);
            (s.categories != [] <==> InCategory(lines, m)) && (s.current.Some? <==> Open(lines, m))
  {
    if lines != [] {
      var before := lines[..|lines| - 1];
      AfterTracks(before, m);
      assert InCategory(lines, m) <==> InCategory(before, m) || Heading(lines[|lines| - 1], m);
    }
  }

  /** What one line adds. */
  lemma LineFlat(s: State, line: string, m: Marks)
    requires Formed(s)
    ensures var r := Line(s, line, m);
            Flat(r) == if Heading(line, m) then Flat(Close(s))
                       else if s.categories == [] then Flat(s) + [line]
                       else if m.bullet(line) then Flat(Close(s)) + [line]
                       else if s.current.Some? && (Blank(line) || Indented(line)) then Flat(s) + [line]
                       else Flat(Close(s))
  {
    var c := Close(s);
    if Heading(line, m) {
      var r := Line(s, line, m);
      assert r.categories[..|r.categories| - 1] == c.categories;
      assert AllBullets(r.categories) == AllBullets(c.categories);
    }
  }

  lemma {:induction false} AfterKeeps(lines: Lines, m: Marks)
    requires Sane(m)
    ensures Content(Flat(After(lines, m))) == Kept(lines, m)
  {
    if lines != [] {
      var n := |lines| - 1;
      var s, line := After(lines[..n], m), lines[n];
      AfterKeeps(lines[..n], m);
      AfterIsFormed(lines[..n], m);
      AfterTracks(lines[..n], m);
      hide Formed, Flat, Close, After, Blank, Content;
      LineFlat(s, line, m);
      ClosedFlat(s);
      ContentOfSum(Flat(s), [line]);
      ContentOfSum(Flat(Close(s)), [line]);
      ContentOfOne(line);
    }
  }

  lemma ContentOfOne(line: string)
    ensures Content([line]) == if Blank(line) then [] else [line]
  {
  }

  /** What comes out is the state with its bullet closed and its lead stripped. */
  lemma SplitFlat(lines: Lines, m: Marks)
    ensures var s := Close(After(lines, m));
            && Flat(s) == s.lead + Joined(AllBullets(s.categories))
            && Flat(Split(lines, m)) == Stripped(s.lead) + Joined(AllBullets(s.categories))
  {
  }

  /**
    Which lines the split keeps: exactly the lead, the bullets' first lines, and what is blank or indented below
    one.
   */
  lemma SplitKeeps(lines: Lines, m: Marks)
    requires Sane(m)
    ensures Content(Flat(Split(lines, m))) == Kept(lines, m)
  {
    var s := Close(After(lines, m));
    var bullets := Joined(AllBullets(s.categories));
    AfterKeeps(lines, m);
    AfterIsFormed(lines, m);
    ClosedFlat(After(lines, m));
    hide Content, After, Close, Split, Kept;
    SplitFlat(lines, m);
    ContentOfSum(s.lead, bullets);
    ContentOfSum(Stripped(s.lead), bullets);
    ContentOfStripped(s.lead);
  }

  function Body(lines: Lines, m: Marks): Lines {
    if lines == [] then []
    else Body(lines[..|lines| - 1], m) + if Heading(lines[|lines| - 1], m) then [] else [lines[|lines| - 1]]
  }

  /** The line has something on it, is no heading, and is not kept: an unindented line below a bullet, say. */
  predicate Lost(lines: Lines, n: nat, m: Marks)
    requires n < |lines|
  {
    !Blank(lines[n]) && !Heading(lines[n], m) && !Keeps(lines[..n + 1], m)
  }

  predicate LosesNothing(lines: Lines, m: Marks) {
    forall n | 0 <= n < |lines| :: !Lost(lines, n, m)
  }

  lemma SameEnd(a: Lines, b: Lines, line: string)
    ensures a + [line] == b + [line] <==> a == b
    ensures |a + [line]| == |a| + 1
  {
    if a + [line] == b + [line] {
      assert a == (a + [line])[..|a|] == (b + [line])[..|b|] == b;
    }
  }

  lemma BodyGrows(before: Lines, line: string, m: Marks)
    ensures Content(Body(before + [line], m))
            == if Heading(line, m) || Blank(line) then Content(Body(before, m)) else Content(Body(before, m)) + [line]
  {
    assert Body(before, m) + [] == Body(before, m);
    assert (before + [line])[..|before|] == before;
    ContentOfSum(Body(before, m), [line]);
    ContentOfOne(line);
  }

  lemma KeptGrows(before: Lines, line: string, m: Marks)
    ensures Kept(before + [line], m)
            == if Keeps(before + [line], m) && !Blank(line) then Kept(before, m) + [line] else Kept(before, m)
    ensures Heading(line, m) ==> !Keeps(before + [line], m)
    ensures LosesNothing(before + [line], m)
            <==> LosesNothing(before, m) && (Blank(line) || Heading(line, m) || Keeps(before + [line], m))
  {
    assert (before + [line])[..|before|] == before && Kept(before, m) + [] == Kept(before, m);
    assert (before + [line])[..|before| + 1] == before + [line];
    forall k | 0 <= k < |before| ensures Lost(before + [line], k, m) == Lost(before, k, m) {
      assert (before + [line])[..k + 1] == before[..k + 1];
    }
    assert Lost(before + [line], |before|, m) <==> !Blank(line) && !Heading(line, m) && !Keeps(before + [line], m);
    if LosesNothing(before + [line], m) {
      forall k | 0 <= k < |before| ensures !Lost(before, k, m) {
        assert !Lost(before + [line], k, m);
      }
    }
  }

  lemma {:induction false} KeptIsBody(lines: Lines, m: Marks)
    ensures |Kept(lines, m)| <= |Content(Body(lines, m))|
    ensures Kept(lines, m) == Content(Body(lines, m)) <==> LosesNothing(lines, m)
  {
    if lines != [] {
      var n := |lines| - 1;
      var before, line := lines[..n], lines[n];
      KeptIsBody(before, m);
      assert lines == before + [line];
      BodyGrows(before, line, m);
      KeptGrows(before, line, m);
      SameEnd(Kept(before, m), Content(Body(before, m)), line);
      hide Kept, Body, Content, LosesNothing, Keeps, Blank, Heading;
    }
  }

  /** No text is lost exactly when every line that is not a heading is part of the lead or of a bullet. */
  lemma SplitLosesNothingIff(lines: Lines, m: Marks)
    requires Sane(m)
    ensures Content(Flat(Split(lines, m))) == Content(Body(lines, m)) <==> LosesNothing(lines, m)
  {
    SplitKeeps(lines, m);
    KeptIsBody(lines, m);
  }

  /** Marks a changelog could have: headings begin with three number signs and bullets with a dash. */
  const PLAIN := Marks(
    line => if |line| > 4 && line[..4] == "### " then Some(line[4..]) else None,
    line => |line| > 2 && line[..2] == "- ",
    name => name == "Action required")

  lemma PlainIsSane()
    ensures Sane(PLAIN)
  {
    forall line: string | PLAIN.category(line).Some? || PLAIN.bullet(line)
      ensures !Blank(line)
    {
      assert line[0] in line && line[0] in {'#', '-'};
    }
  }

  /** In a category, every line with something on it that is not indented and no bullet is lost. */
  lemma UnindentedIsLost(lines: Lines, n: nat, m: Marks)
    requires n < |lines| && InCategory(lines[..n], m)
    requires !Blank(lines[n]) && !Heading(lines[n], m) && !Indented(lines[n]) && !m.bullet(lines[n])
    ensures Lost(lines, n, m)
  {
    assert lines[..n + 1][..n] == lines[..n];
  }

  /** A bullet that goes on in a line without indentation loses that line. */
  lemma WrappedBulletIsCut()
    ensures var lines := ["### Fixed", "- a bullet", "goes on"];
            && Sane(PLAIN) && !LosesNothing(lines, PLAIN)
            && Content(Flat(Split(lines, PLAIN))) != Content(Body(lines, PLAIN))
  {
    var lines, line := ["### Fixed", "- a bullet", "goes on"], "goes on";
    assert Heading(lines[..2][0], PLAIN);
    assert line[0] in line && !Blank(line) && !Indented(line) && !Heading(line, PLAIN) && !PLAIN.bullet(line);
    PlainIsSane();
    hide Split, Flat, Content, Body, Open, Keeps, Blank, Heading, Indented;
    SplitLosesNothingIff(lines, PLAIN);
    UnindentedIsLost(lines, 2, PLAIN);
  }

  /** The section's skeleton: each category's name and the first lines of its bullets. */
  function Outline(lines: Lines, m: Marks): seq<(string, Lines)> {
    if lines == [] then []
    else
      var last, o := lines[|lines| - 1], Outline(lines[..|lines| - 1], m);
      if Heading(last, m) then o + [(m.category(last).value, [])]
      else if o != [] && m.bullet(last) then o[|o| - 1 := (o[|o| - 1].0, o[|o| - 1].1 + [last])]
      else o
  }

  function Head(bullet: Lines): string {
    if bullet == [] then "" else bullet[0]
  }

  function Heads(bullets: seq<Lines>): Lines {
    seq(|bullets|, k requires 0 <= k < |bullets| => Head(bullets[k]))
  }

  function Skeleton(categories: seq<Category>): seq<(string, Lines)> {
    seq(|categories|, k requires 0 <= k < |categories| => (categories[k].name, Heads(categories[k].bullets)))
  }

  lemma ClosedSkeleton(s: State)
    requires Formed(s)
    ensures var o := Skeleton(s.categories);
            Skeleton(Close(s).categories)
            == if s.current.None? then o else o[|o| - 1 := (o[|o| - 1].0, o[|o| - 1].1 + [s.current.value[0]])]
  {
    if s.current.Some? {
      var n := |s.categories| - 1;
      assert Trimmed(s.current.value)[0] == s.current.value[0];
      assert Heads(Close(s).categories[n].bullets) == Heads(s.categories[n].bullets) + [s.current.value[0]];
    }
  }

  lemma ClosedIsClosed(s: State)
    requires Formed(s)
    ensures Formed(Close(s)) && Close(s).current.None? && Close(Close(s)) == Close(s)
        && (Close(s).categories == [] <==> s.categories == [])
  {
  }

  /** One category per heading and one bullet per bullet line of its category, in the order of the text. */
  lemma {:induction false} SplitFollowsOutline(lines: Lines, m: Marks)
    requires Sane(m)
    ensures Skeleton(Split(lines, m).categories) == Outline(lines, m)
  {
    if lines != [] {
      var n := |lines| - 1;
      var s, line := After(lines[..n], m), lines[n];
      SplitFollowsOutline(lines[..n], m);
      AfterIsFormed(lines[..n], m);
      assert Skeleton(Close(s).categories) == Outline(lines[..n], m);
      assert Skeleton(Close(Line(s, line, m)).categories) == Outline(lines, m) by {
        LineSkeleton(s, line, m);
      }
    }
  }

  lemma LineSkeleton(s: State, line: string, m: Marks)
    requires Formed(s) && Sane(m)
    ensures var o := Skeleton(Close(s).categories);
            Skeleton(Close(Line(s, line, m)).categories)
            == if Heading(line, m) then o + [(m.category(line).value, [])]
               else if o != [] && m.bullet(line) then o[|o| - 1 := (o[|o| - 1].0, o[|o| - 1].1 + [line])]
               else o
  {
    ClosedIsClosed(s);
    ClosedSkeleton(s);
    if Heading(line, m) {
      assert Heads([]) == [];
    } else if s.categories == [] {
    } else if m.bullet(line) {
      ClosedSkeleton(Line(s, line, m));
    } else if s.current.Some? && (Blank(line) || Indented(line)) {
      assert (s.current.value + [line])[0] == s.current.value[0];
      ClosedSkeleton(Line(s, line, m));
    } else {
      ClosedSkeleton(Close(s));
    }
  }

  /** What is under one bullet: its own line, and blank or indented ones. */
  predicate OneBullet(bullet: Lines, m: Marks) {
    && bullet != [] && m.bullet(bullet[0])
    && forall j | 1 <= j < |bullet| :: Blank(bullet[j]) || Indented(bullet[j])
  }

  predicate Finished(bullets: seq<Lines>, m: Marks) {
    forall j | 0 <= j < |bullets| :: OneBullet(bullets[j], m) && !Blank(bullets[j][|bullets[j]| - 1])
  }

  predicate Tidy(s: State, m: Marks) {
    && (forall k | 0 <= k < |s.categories| :: Finished(s.categories[k].bullets, m))
    && (s.current.Some? ==> s.categories != [] && OneBullet(s.current.value, m))
  }

  lemma ClosedIsTidy(s: State, m: Marks)
    requires Sane(m) && Tidy(s, m)
    ensures Tidy(Close(s), m) && Close(s).lead == s.lead && |Close(s).categories| == |s.categories|
  {
    if s.current.Some? {
      var bullet, n := Trimmed(s.current.value), |s.categories| - 1;
      assert !Blank(s.current.value[0]);
      assert bullet != [] && OneBullet(bullet, m);
      assert Finished(s.categories[n].bullets, m);
      assert Finished(s.categories[n].bullets + [bullet], m);
    }
  }

  lemma LineIsTidy(s: State, line: string, m: Marks)
    requires Sane(m) && Tidy(s, m)
    ensures Tidy(Line(s, line, m), m)
    ensures Line(s, line, m).lead == s.lead + if !Heading(line, m) && s.categories == [] then [line] else []
    ensures Line(s, line, m).categories == [] <==> s.categories == [] && !Heading(line, m)
  {
    ClosedIsTidy(s, m);
    hide Blank, Indented, Heading, Close;
  }

  lemma {:induction false} AfterIsTidy(lines: Lines, m: Marks)
    requires Sane(m)
    ensures var s := After(lines, m);
            && Tidy(s, m) && s.lead == lines[..NextHeading(lines, 0, m)]
            && (s.categories == [] <==> NextHeading(lines, 0, m) == |lines|)
  {
    if lines != [] {
      var n := |lines| - 1;
      AfterIsTidy(lines[..n], m);
      LineIsTidy(After(lines[..n], m), lines[n], m);
      NextHeadingGrows(lines, 0, m);
      hide NextHeading, Line, Tidy;
    }
  }

  lemma NextHeadingGrows(lines: Lines, i: nat, m: Marks)
    requires i <= |lines| - 1
    ensures var (n, before) := (|lines| - 1, NextHeading(lines[..|lines| - 1], i, m));
            NextHeading(lines, i, m) == if before < n then before else if Heading(lines[n], m) then n else n + 1
    decreases |lines| - i
  {
    if i < |lines| - 1 && !Heading(lines[i], m) {
      NextHeadingGrows(lines, i + 1, m);
    }
  }

  /**
    The split is tidy: the lead is what stands before the first heading, without the empty lines at its ends; and every
    bullet is one bullet line with blank or indented lines below it, the last of them with something on it.
   */
  lemma SplitIsTidy(lines: Lines, m: Marks) returns (i: nat, j: nat)
    requires Sane(m)
    ensures var (s, first) := (Split(lines, m), NextHeading(lines, 0, m));
            && (forall k | 0 <= k < |s.categories| :: Finished(s.categories[k].bullets, m))
            && i <= j <= first && s.lead == lines[i..j]
            && (forall k | 0 <= k < i || j <= k < first :: lines[k] == "")
            && (i < j ==> lines[i] != "" && lines[j - 1] != "")
  {
    var first := NextHeading(lines, 0, m);
    AfterIsTidy(lines, m);
    ClosedIsTidy(After(lines, m), m);
    i, j := StrippedIs(lines[..first]);
    assert lines[..first][i..j] == lines[i..j];
    hide NextHeading, After, Close, Stripped, Finished;
    assert forall k | 0 <= k < first :: lines[..first][k] == lines[k];
  }

  /** What counts as blank and as indented. */
  lemma BlankAndIndented(line: string)
    ensures Blank(line)
            <==> forall i | 0 <= i < |line| ::
                   line[i] == ' ' || line[i] == '\t' || line[i] == '\n' || line[i] == '\r'
    ensures Indented(line) <==> |line| > 0 && (line[0] == ' ' || line[0] == '\t')
  {
    assert forall i | 0 <= i < |line| :: line[i] in line;
  }

  /** The lines of a are lines of b, in order. */
  ghost predicate Among(a: Lines, b: Lines) {
    a == [] ||
    (b != [] && (Among(a, b[..|b| - 1]) || (a[|a| - 1] == b[|b| - 1] && Among(a[..|a| - 1], b[..|b| - 1]))))
  }

  lemma {:induction false} AmongPrefix(a: Lines, b: Lines, n: nat)
    requires Among(a, b) && n <= |a|
    ensures Among(a[..n], b)
  {
    if a != [] && n < |a| {
      if Among(a, b[..|b| - 1]) {
        AmongPrefix(a, b[..|b| - 1], n);
      } else {
        assert a[..|a| - 1][..n] == a[..n];
        AmongPrefix(a[..|a| - 1], b[..|b| - 1], n);
      }
    } else {
      assert a[..n] == a;
    }
  }

  lemma {:induction false} AmongSuffix(a: Lines, b: Lines, n: nat)
    requires Among(a, b) && n <= |a|
    ensures Among(a[n..], b)
  {
    if n < |a| {
      if Among(a, b[..|b| - 1]) {
        AmongSuffix(a, b[..|b| - 1], n);
      } else {
        assert a[..|a| - 1][n..] == a[n..][..|a| - n - 1];
        AmongSuffix(a[..|a| - 1], b[..|b| - 1], n);
      }
    }
  }

  lemma {:induction false} AmongSum(a: Lines, b: Lines, c: Lines, d: Lines)
    requires Among(a, b) && Among(c, d)
    ensures Among(a + c, b + d)
    decreases |d|
  {
    if d == [] {
      assert a + c == a && b + d == b;
    } else {
      assert (b + d)[..|b + d| - 1] == b + d[..|d| - 1];
      if Among(c, d[..|d| - 1]) {
        AmongSum(a, b, c, d[..|d| - 1]);
      } else {
        assert (a + c)[..|a + c| - 1] == a + c[..|c| - 1];
        AmongSum(a, b, c[..|c| - 1], d[..|d| - 1]);
      }
    }
  }

  lemma {:induction false} AmongTrans(a: Lines, b: Lines, c: Lines)
    requires Among(a, b) && Among(b, c)
    ensures Among(a, c)
    decreases |c|
  {
    if a != [] {
      if Among(b, c[..|c| - 1]) {
        AmongTrans(a, b, c[..|c| - 1]);
      } else if Among(a, b[..|b| - 1]) {
        AmongTrans(a, b[..|b| - 1], c[..|c| - 1]);
      } else {
        AmongTrans(a[..|a| - 1], b[..|b| - 1], c[..|c| - 1]);
      }
    }
  }

  lemma {:induction false} AmongSelf(a: Lines)
    ensures Among(a, a)
  {
    if a != [] {
      AmongSelf(a[..|a| - 1]);
    }
  }

  lemma {:induction false} StrippedIsAmong(lines: Lines)
    ensures Among(Stripped(lines), lines)
    decreases |lines|
  {
    AmongSelf(lines);
    if lines != [] && lines[0] == "" {
      StrippedIsAmong(lines[1..]);
      AmongSuffix(lines, lines, 1);
      AmongTrans(Stripped(lines[1..]), lines[1..], lines);
    } else if lines != [] && lines[|lines| - 1] == "" {
      StrippedIsAmong(lines[..|lines| - 1]);
    }
  }

  lemma {:induction false} AfterIsAmong(lines: Lines, m: Marks)
    requires Sane(m)
    ensures Among(Flat(After(lines, m)), lines)
  {
    if lines != [] {
      var n := |lines| - 1;
      var s, line := After(lines[..n], m), lines[n];
      AfterIsAmong(lines[..n], m);
      AfterIsFormed(lines[..n], m);
      LineFlat(s, line, m);
      ClosedFlat(s);
      var closed := Flat(Close(s));
      assert closed == Flat(s)[..|closed|];
      AmongPrefix(Flat(s), lines[..n], |closed|);
      assert (closed + [line])[..|closed|] == closed && (Flat(s) + [line])[..|Flat(s)|] == Flat(s);
    }
  }

  /** What the split keeps, blank lines and all, are lines of the text in the order of the text. */
  lemma SplitIsAmong(lines: Lines, m: Marks)
    requires Sane(m)
    ensures Among(Flat(Split(lines, m)), lines)
  {
    var s := Close(After(lines, m));
    var bullets := Joined(AllBullets(s.categories));
    AfterIsAmong(lines, m);
    AfterIsFormed(lines, m);
    ClosedFlat(After(lines, m));
    assert Flat(s) == Flat(After(lines, m))[..|Flat(s)|];
    AmongPrefix(Flat(After(lines, m)), lines, |Flat(s)|);
    hide After, Close, Split, Flat;
    SplitFlat(lines, m);
    StrippedIsAmong(s.lead);
    AmongSelf(bullets);
    AmongSum(Stripped(s.lead), s.lead, bullets, bullets);
    AmongTrans(Flat(Split(lines, m)), Flat(s), lines);
  }
}
