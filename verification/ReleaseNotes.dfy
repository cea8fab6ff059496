/** One section of the changelog on its way into a release: lifting the action category, splitting into bullets. */
module ReleaseNotes {
  import opened Wrappers

  type Lines = seq<string>

  /** What the patterns match: the name of a category heading, a bullet's first line, the action category's name. */
  datatype Marks = Marks(category: string -> Option<string>, bullet: string -> bool, action: string -> bool)

  predicate Blank(line: string) {
    forall c | c in line :: c in " \t\n\r"
  }

  predicate Indented(line: string) {
    line != "" && line[0] in " \t"
  }

  /** A heading or a bullet has something on it. */
  ghost predicate Sane(m: Marks) {
    forall line: string :: m.category(line).Some? || m.bullet(line) ==> !Blank(line)
  }

  predicate Heading(line: string, m: Marks) {
    m.category(line).Some?
  }

  predicate Action(line: string, m: Marks) {
    Heading(line, m) && m.action(m.category(line).value)
  }

  /** The first heading from i on, or the end. */
  function NextHeading(lines: Lines, i: nat, m: Marks): (r: nat)
    requires i <= |lines|
    ensures i <= r <= |lines| && (r < |lines| ==> Heading(lines[r], m))
    ensures forall j | i <= j < r :: !Heading(lines[j], m)
    decreases |lines| - i
  {
    if i == |lines| || Heading(lines[i], m) then i else NextHeading(lines, i + 1, m)
  }

  function NextAction(lines: Lines, i: nat, m: Marks): (r: nat)
    requires i <= |lines|
    ensures i <= r <= |lines| && (r < |lines| ==> Action(lines[r], m))
    ensures forall j | i <= j < r :: !Action(lines[j], m)
    decreases |lines| - i
  {
    if i == |lines| || Action(lines[i], m) then i else NextAction(lines, i + 1, m)
  }

  /** Without the blank lines at the end. */
  function Trimmed(lines: Lines): (r: Lines)
    ensures r <= lines && (r != [] ==> !Blank(r[|r| - 1]))
    ensures forall j | |r| <= j < |lines| :: Blank(lines[j])
  {
    if lines != [] && Blank(lines[|lines| - 1]) then Trimmed(lines[..|lines| - 1]) else lines
  }

  /** Without the empty lines at either end. */
  function Stripped(lines: Lines): Lines {
    if lines != [] && lines[0] == "" then Stripped(lines[1..])
    else if lines != [] && lines[|lines| - 1] == "" then Stripped(lines[..|lines| - 1])
    else lines
  }

  predicate AllBlank(lines: Lines) {
    forall line | line in lines :: Blank(line)
  }

  datatype Lifted = Lifted(lines: Lines) | EmptyAction(heading: string)

  /** Lead, action category, an empty line, the rest. */
  function Reordered(lines: Lines, first: nat, start: nat, end: nat): Lines
    requires first <= start <= end <= |lines|
  {
    Stripped(lines[..first] + Trimmed(lines[start..end]) + [""] + Trimmed(lines[first..start] + lines[end..]))
  }

  function Lift(lines: Lines, m: Marks): Lifted {
    var start := NextAction(lines, 0, m);
    if start == |lines| then Lifted(lines)
    else
      var end := NextHeading(lines, start + 1, m);
      var first := NextHeading(lines, 0, m);
      if AllBlank(lines[start + 1..end]) then EmptyAction(lines[start])
      else if start == first then Lifted(lines)
      else Lifted(Reordered(lines, first, start, end))
  }

  method Pop(lines: Lines) returns (r: Lines)
    ensures r == Trimmed(lines)
  {
    r := lines;
    while r != [] && Blank(r[|r| - 1])
      invariant Trimmed(r) == Trimmed(lines)
      decreases |r|
    {
      r := r[..|r| - 1];
    }
  }

  method LiftAction(lines: Lines, m: Marks) returns (r: Lifted)
    ensures r == Lift(lines, m)
  {
    var start: Option<nat> := None;
    var end := |lines|;
    var number := 0;
    while number < |lines|
      invariant number <= |lines|
      invariant start.None? ==> end == |lines| && NextAction(lines, 0, m) == NextAction(lines, number, m)
      invariant start.Some? ==> start.value < |lines| && start.value == NextAction(lines, 0, m)
      invariant start.Some? && number < |lines| ==> end == |lines| && start.value < number
      invariant start.Some? && number < |lines|
          ==> NextHeading(lines, start.value + 1, m) == NextHeading(lines, number, m)
      invariant start.Some? && number == |lines| ==> end == NextHeading(lines, start.value + 1, m)
    {
      if Heading(lines[number], m) {
        if start.None? {
          if Action(lines[number], m) {
            start := Some(number);
          }
        } else {
          end := number;
          break;
        }
      }
      number := number + 1;
    }
    if start.None? {
      return Lifted(lines);
    }
    if AllBlank(lines[start.value + 1..end]) {
      return EmptyAction(lines[start.value]);
    }
    var first := NextHeading(lines, 0, m);
    if start.value == first {
      return Lifted(lines);
    }
    assert first <= start.value by {
      assert Heading(lines[start.value], m);
    }
    var block := Pop(lines[start.value..end]);
    var rest := Pop(lines[first..start.value] + lines[end..]);
    r := Lifted(Stripped(lines[..first] + block + [""] + rest));
  }

  /** A heading's name and its bullets, each a list of lines. */
  datatype Category = Category(name: string, bullets: seq<Lines>)

  /** Where the split has come to: the bullet being collected is current. */
  datatype State = State(lead: Lines, categories: seq<Category>, current: Option<Lines>)

  function Close(s: State): State {
    if s.current.None? || s.categories == [] then s.(current := None)
    else
      var n := |s.categories| - 1;
      var last := s.categories[n];
      s.(categories := s.categories[n := last.(bullets := last.bullets + [Trimmed(s.current.value)])], current := None)
  }

  function Line(s: State, line: string, m: Marks): State {
    if Heading(line, m) then
      var closed := Close(s);
      closed.(categories := closed.categories + [Category(m.category(line).value, [])])
    else if s.categories == [] then s.(lead := s.lead + [line])
    else if m.bullet(line) then Close(s).(current := Some([line]))
    else if s.current.Some? && (Blank(line) || Indented(line)) then s.(current := Some(s.current.value + [line]))
    else Close(s)
  }

  function After(lines: Lines, m: Marks): (s: State)
    ensures s.categories == [] ==> s.current.None?
  {
    if lines == [] then State([], [], None) else Line(After(lines[..|lines| - 1], m), lines[|lines| - 1], m)
  }

  function Split(lines: Lines, m: Marks): State {
    var s := Close(After(lines, m));
    s.(lead := Stripped(s.lead))
  }

  method CloseBullet(categories: seq<Category>, current: Option<Lines>) returns (closed: seq<Category>)
    requires categories == [] ==> current.None?
    ensures forall lead :: State(lead, closed, None) == Close(State(lead, categories, current))
  {
    closed := categories;
    if current.Some? {
      var n := |categories| - 1;
      var bullet := Pop(current.value);
      closed := categories[n := categories[n].(bullets := categories[n].bullets + [bullet])];
    }
  }

  method SplitCategories(lines: Lines, m: Marks) returns (lead: Lines, categories: seq<Category>)
    ensures State(lead, categories, None) == Split(lines, m)
  {
    var current: Option<Lines> := None;
    lead, categories := [], [];
    var n := 0;
    while n < |lines|
      invariant n <= |lines|
      invariant State(lead, categories, current) == After(lines[..n], m)
    {
      var line := lines[n];
      assert lines[..n + 1][..n] == lines[..n];
      n := n + 1;
      if Heading(line, m) {
        categories := CloseBullet(categories, current);
        current, categories := None, categories + [Category(m.category(line).value, [])];
      } else if categories == [] {
        lead := lead + [line];
      } else if m.bullet(line) {
        categories := CloseBullet(categories, current);
        current := Some([line]);
      } else if current.Some? && (Blank(line) || Indented(line)) {
        current := Some(current.value + [line]);
      } else {
        categories := CloseBullet(categories, current);
        current := None;
      }
    }
    assert lines[..n] == lines;
    categories := CloseBullet(categories, current);
    lead := Stripped(lead);
  }
}
