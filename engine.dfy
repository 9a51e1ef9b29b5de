/**
 * The merge loop (`replace_or_append`, `process_rooms`): for each room the
 * grid's card list is searched for the room's stack, the template is
 * instantiated, and the new stack replaces the first match or is appended.
 * The grid is edited in place, so it is an object whose `root` field the
 * methods reassign.
 */
module Engine {
  import opened Tree
  import opened Slug
  import opened Matcher
  import opened Template
  import opened Validate

  /** The grid with its card list replaced. */
  function SetCards(root: Node, cards: seq<Node>): Node
    requires root.Mapping?
  {
    Mapping(Put(root.entries, "cards", Sequence(cards)))
  }

  /** Replacing the card list of a grid that has one: only `cards` changes, and it holds the new list. */
  lemma SetCardsFacts(root: Node, cards: seq<Node>)
    requires GridCards(root).Some?
    ensures var next := SetCards(root, cards);
      && GridCards(next) == Some(cards)
      && SameKeys(next.entries, root.entries)
      && forall k :: k != "cards" ==> Get(next.entries, k) == Get(root.entries, k)
  {
  }

  /** The card list after the new stack is placed: over the match, or at the end. */
  function Placed(cards: seq<Node>, stack: Node, index: Option<nat>): seq<Node>
    requires index.Some? ==> index.value < |cards|
  {
    if index.Some? then cards[index.value := stack] else cards + [stack]
  }

  /** Where the new stack lands. */
  function PlacedAt(cards: seq<Node>, index: Option<nat>): nat
  {
    if index.Some? then index.value else |cards|
  }

  function Action(index: Option<nat>): string
  {
    if index.Some? then "replaced" else "appended"
  }

  /**
   * Placing a stack puts it at the reported position, keeps every other
   * card where it was, and grows the list by one only when appending.
   */
  lemma PlacedFacts(cards: seq<Node>, stack: Node, index: Option<nat>)
    requires index.Some? ==> index.value < |cards|
    ensures var r, p := Placed(cards, stack, index), PlacedAt(cards, index);
      && |r| == |cards| + (if index.Some? then 0 else 1)
      && p < |r| && r[p] == stack
      && forall j :: 0 <= j < |cards| && j != p ==> r[j] == cards[j]
  {
  }

  /** Decimal digits of a number, most significant first. */
  function DecimalString(n: nat): (r: string)
    ensures |r| >= 1 && forall i :: 0 <= i < |r| ==> '0' <= r[i] <= '9'
  {
    if n < 10 then [Digit(n)] else DecimalString(n / 10) + [Digit(n % 10)]
  }

  function Digit(d: nat): (c: char)
    requires d < 10
    ensures '0' <= c <= '9'
  {
    ('0' as int + d) as char
  }

  /** The number a string of decimal digits denotes. */
  function DecimalValue(s: string): nat
    requires forall i :: 0 <= i < |s| ==> '0' <= s[i] <= '9'
  {
    if s == [] then 0 else DecimalValue(s[..|s| - 1]) * 10 + (s[|s| - 1] as int - '0' as int)
  }

  /** The decimal rendering of a position reads back as that position. */
  lemma {:induction false} DecimalRoundTrip(n: nat)
    ensures DecimalValue(DecimalString(n)) == n
  {
    if n >= 10 {
      var s := DecimalString(n);
      assert s[..|s| - 1] == DecimalString(n / 10);
      DecimalRoundTrip(n / 10);
    }
  }

  /** One line of the run report. */
  function Report(room: string, action: string, pos: nat): string
  {
    room + ": " + action + " at index " + DecimalString(pos)
  }

  /** The stack the template yields for a room and its area id. */
  function Maker(template: Node, icons: Option<map<string, string>>): (string, string) -> Node
  {
    (room, areaId) => Instantiate(template, room, areaId, icons)
  }

  /**
   * What one room does to a grid: the new grid and its report line, or the
   * failure.  A grid without a card list is malformed; with one, only an
   * unknown strategy fails.  On success the room's new stack is in the card
   * list, which grew by at most one card, and the line names the room.
   */
  function Step(root: Node, room: string, make: (string, string) -> Node, strategy: string): (r: Result<(Node, string), Failure>)
    ensures GridCards(root).None? ==> r == Err(MalformedGrid)
    ensures r.Err? && GridCards(root).Some? ==> !KnownStrategy(strategy) && r.error == UnknownStrategy(strategy)
    ensures r.Ok? ==>
      && GridCards(root).Some? && GridCards(r.value.0).Some?
      && |GridCards(root).value| <= |GridCards(r.value.0).value| <= |GridCards(root).value| + 1
      && make(room, SlugOf(room)) in GridCards(r.value.0).value
      && room + ": " <= r.value.1
  {
    var areaId := SlugOf(room);
    match GridCards(root)
    case None => Err(MalformedGrid)
    case Some(cards) =>
      match MatchIn(cards, room, areaId, strategy)
      case Err(e) => Err(e)
      case Ok(found) =>
        MatchInBounds(cards, room, areaId, strategy);
        var placed := Placed(cards, make(room, areaId), found.index);
        PlacedFacts(cards, make(room, areaId), found.index);
        SetCardsFacts(root, placed);
        ReportStarts(room, Action(found.index), PlacedAt(cards, found.index));
        Ok((SetCards(root, placed), Report(room, Action(found.index), PlacedAt(cards, found.index))))
  }

  /** The grid after a run and its report lines, or the failure that stopped it. */
  datatype Outcome = Outcome(grid: Node, reports: Result<seq<string>, Failure>)

  /** An outcome preceded by lines already reported. */
  function After(lines: seq<string>, o: Outcome): Outcome
  {
    Outcome(o.grid, if o.reports.Ok? then Ok(lines + o.reports.value) else o.reports)
  }

  /** Lines reported in two batches are the lines reported at once: the loop's step. */
  lemma AfterAfter(lines: seq<string>, more: seq<string>, o: Outcome)
    ensures After(lines, After(more, o)) == After(lines + more, o)
  {
    if o.reports.Ok? {
      assert lines + (more + o.reports.value) == lines + more + o.reports.value;
    }
  }

  /**
   * The rooms in order; a failure stops the run and keeps the changes the
   * earlier rooms made.  A grid with a card list keeps one and fails only
   * under an unknown strategy; a successful run has one line per room.
   */
  function Process(root: Node, rooms: seq<string>, make: (string, string) -> Node, strategy: string): (o: Outcome)
    ensures o.reports.Ok? ==> |o.reports.value| == |rooms|
    ensures GridCards(root).Some? ==> GridCards(o.grid).Some?
    ensures o.reports.Err? && GridCards(root).Some? ==> !KnownStrategy(strategy)
    decreases |rooms|
  {
    if rooms == [] then Outcome(root, Ok([]))
    else match Step(root, rooms[0], make, strategy)
      case Err(e) => Outcome(root, Err(e))
      case Ok((next, line)) => After([line], Process(next, rooms[1..], make, strategy))
  }

  class Grid {
    var root: Node

    constructor (root: Node)
      ensures this.root == root
    {
      this.root := root;
    }

    /**
     * `replace_or_append`: the new stack replaces the card at `index` or is
     * appended.  Both insert modes append when there is no match.
     */
    method ReplaceOrAppend(stack: Node, index: Option<nat>, insertMode: string) returns (pos: nat, action: string)
      requires GridCards(root).Some?
      requires index.Some? ==> index.value < |GridCards(root).value|
      modifies this
      ensures var cards := GridCards(old(root)).value;
        && root == SetCards(old(root), Placed(cards, stack, index))
        && pos == PlacedAt(cards, index)
        && action == Action(index)
    {
      var cards := GridCards(root).value;
      action := "appended";
      if index.Some? {
        root := SetCards(root, cards[index.value := stack]);
        return index.value, "replaced";
      }
      if insertMode == "append" {
        root := SetCards(root, cards + [stack]);
        return |cards + [stack]| - 1, action;
      }
      root := SetCards(root, cards + [stack]);
      return |cards + [stack]| - 1, action;
    }

    /** `process_rooms`: each room in turn, collecting one report line per room. */
    method ProcessRooms(rooms: seq<string>, template: Node, strategy: string, insertMode: string,
                        icons: Option<map<string, string>>) returns (r: Result<seq<string>, Failure>)
      requires root.Mapping? && HasKey(root.entries, "cards")
      modifies this
      ensures root == Process(old(root), rooms, Maker(template, icons), strategy).grid
      ensures r == Process(old(root), rooms, Maker(template, icons), strategy).reports
    {
      ghost var make := Maker(template, icons);
      ghost var start := root;
      var reports: seq<string> := [];
      var i := 0;
      assert rooms[i..] == rooms;
      assert After(reports, Process(root, rooms[i..], make, strategy)) == Process(start, rooms, make, strategy) by {
        var o := Process(root, rooms, make, strategy);
        if o.reports.Ok? {
          assert [] + o.reports.value == o.reports.value;
        }
      }
      while i < |rooms|
        invariant 0 <= i <= |rooms|
        invariant After(reports, Process(root, rooms[i..], make, strategy)) == Process(start, rooms, make, strategy)
      {
        var room := rooms[i];
        assert rooms[i..][0] == room && rooms[i..][1..] == rooms[i + 1..];
        var areaId := SlugifyArea(room);
        var found := FindExistingStack(root, room, areaId, strategy);
        if found.Err? {
          return Err(found.error);
        }
        MatchInBounds(GridCards(root).value, room, areaId, strategy);
        var stack := DeepApplyTemplate(template, room, areaId, icons);
        assert stack == make(room, areaId);
        var pos, action := ReplaceOrAppend(stack, found.value.index, insertMode);
        var line := Report(room, action, pos);
        AfterAfter(reports, [line], Process(root, rooms[i + 1..], make, strategy));
        reports := reports + [line];
        i := i + 1;
      }
      assert rooms[i..] == [] && reports + [] == reports;
      return Ok(reports);
    }
  }

  /** A report line starts with its room's name. */
  lemma ReportStarts(room: string, action: string, pos: nat)
    ensures room + ": " <= Report(room, action, pos)
  {
    assert Report(room, action, pos) == (room + ": ") + (action + " at index " + DecimalString(pos));
  }

  /** A line reporting `room` as replaced or appended at some position. */
  ghost predicate ReportFor(room: string, line: string)
  {
    exists action, pos :: (action == "replaced" || action == "appended") && line == Report(room, action, pos)
  }

  /** A room's report line reports that room, and so starts with its name. */
  lemma StepReport(root: Node, room: string, make: (string, string) -> Node, strategy: string)
    ensures var step := Step(root, room, make, strategy);
      step.Ok? ==> ReportFor(room, step.value.1) && room + ": " <= step.value.1
  {
    var step := Step(root, room, make, strategy);
    if step.Ok? {
      var cards := GridCards(root).value;
      var found := MatchIn(cards, room, SlugOf(room), strategy).value;
      ReportStarts(room, Action(found.index), PlacedAt(cards, found.index));
    }
  }

  /** Whether the lines report the rooms one for one, in order. */
  ghost predicate Headed(rooms: seq<string>, lines: seq<string>)
  {
    |lines| == |rooms| && forall i :: 0 <= i < |rooms| ==> ReportFor(rooms[i], lines[i]) && rooms[i] + ": " <= lines[i]
  }

  lemma HeadedCons(rooms: seq<string>, line: string, rest: seq<string>)
    requires rooms != [] && ReportFor(rooms[0], line) && rooms[0] + ": " <= line && Headed(rooms[1..], rest)
    ensures Headed(rooms, [line] + rest)
  {
    forall i | 1 <= i < |rooms| ensures ReportFor(rooms[i], ([line] + rest)[i]) && rooms[i] + ": " <= ([line] + rest)[i] {
      assert rooms[i] == rooms[1..][i - 1];
    }
  }

  /**
   * A run that succeeds reports every room exactly once, in input order:
   * line `i` is the `replaced`/`appended` report of `rooms[i]`, which starts
   * with that room's name.
   */
  lemma {:induction false} ProcessReports(root: Node, rooms: seq<string>, make: (string, string) -> Node, strategy: string)
    ensures var o := Process(root, rooms, make, strategy);
      o.reports.Ok? ==>
        && |o.reports.value| == |rooms|
        && forall i :: 0 <= i < |rooms| ==> ReportFor(rooms[i], o.reports.value[i]) && rooms[i] + ": " <= o.reports.value[i]
    decreases |rooms|
  {
    if rooms != [] {
      var step := Step(root, rooms[0], make, strategy);
      if step.Ok? {
        StepReport(root, rooms[0], make, strategy);
        ProcessReports(step.value.0, rooms[1..], make, strategy);
        var o := Process(step.value.0, rooms[1..], make, strategy);
        if o.reports.Ok? {
          HeadedCons(rooms, step.value.1, o.reports.value);
        }
      }
    }
  }

  /** One room on a grid with a card list and a known strategy: it succeeds, and only `cards` changes. */
  lemma StepSucceeds(root: Node, room: string, make: (string, string) -> Node, strategy: string)
    requires KnownStrategy(strategy) && GridCards(root).Some?
    ensures var step := Step(root, room, make, strategy);
      && step.Ok?
      && GridCards(step.value.0).Some?
      && SameKeys(step.value.0.entries, root.entries)
      && forall k :: k != "cards" ==> Get(step.value.0.entries, k) == Get(root.entries, k)
  {
    var cards := GridCards(root).value;
    var areaId := SlugOf(room);
    MatchInBounds(cards, room, areaId, strategy);
    var found := MatchIn(cards, room, areaId, strategy).value;
    SetCardsFacts(root, Placed(cards, make(room, areaId), found.index));
  }

  /**
   * With a known strategy a grid holding a card list never makes the run
   * fail; the grid keeps every key but `cards` unchanged and keeps a card list.
   */
  lemma {:induction false} ProcessSucceeds(root: Node, rooms: seq<string>, make: (string, string) -> Node, strategy: string)
    requires KnownStrategy(strategy) && GridCards(root).Some?
    ensures var o := Process(root, rooms, make, strategy);
      && o.reports.Ok?
      && GridCards(o.grid).Some?
      && SameKeys(o.grid.entries, root.entries)
      && forall k :: k != "cards" ==> Get(o.grid.entries, k) == Get(root.entries, k)
    decreases |rooms|
  {
    if rooms != [] {
      StepSucceeds(root, rooms[0], make, strategy);
      var next := Step(root, rooms[0], make, strategy).value.0;
      ProcessSucceeds(next, rooms[1..], make, strategy);
    }
  }

  /**
   * A strategy the matcher does not know fails the first room as soon as
   * the grid holds a pop-up stack, and the grid is left as it was.
   */
  lemma UnknownStrategyFails(root: Node, rooms: seq<string>, make: (string, string) -> Node, strategy: string)
    requires !KnownStrategy(strategy) && GridCards(root).Some? && AnyPopup(GridCards(root).value)
    requires rooms != []
    ensures Process(root, rooms, make, strategy) == Outcome(root, Err(UnknownStrategy(strategy)))
  {
  }

  /** A grid without a card list fails the first room as malformed and is left as it was. */
  lemma MalformedFails(root: Node, rooms: seq<string>, make: (string, string) -> Node, strategy: string)
    requires GridCards(root).None? && rooms != []
    ensures Process(root, rooms, make, strategy) == Outcome(root, Err(MalformedGrid))
  {
  }

  /** A grid that passes its check can be processed, and with a known strategy the run succeeds. */
  lemma ValidGridProcesses(root: Node, rooms: seq<string>, make: (string, string) -> Node, strategy: string)
    requires ValidateGrid(root).Ok?
    ensures root.Mapping? && HasKey(root.entries, "cards")
    ensures KnownStrategy(strategy) ==> Process(root, rooms, make, strategy).reports.Ok?
  {
    if KnownStrategy(strategy) {
      ProcessSucceeds(root, rooms, make, strategy);
    }
  }
}
