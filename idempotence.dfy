/**
 * Re-running the merge with the same rooms leaves the grid as the first run
 * left it, provided every generated stack is found again for its own room
 * and never for another room of the run.  Both conditions hold when the
 * template carries what the detection strategy reads and the rooms are
 * told apart by it (distinct normalised names for `name`, distinct area ids
 * for `hash` and `area`).
 */
module Idempotence {
  import opened Tree
  import opened Slug
  import opened Matcher
  import opened Template
  import opened Engine

  /** The first card found for `room` is the stack `make` builds for it. */
  ghost predicate Settled(cards: seq<Node>, room: string, make: (string, string) -> Node, strategy: string)
  {
    exists p :: 0 <= p < |cards| && FirstFound(cards, p, room, SlugOf(room), strategy)
      && cards[p] == make(room, SlugOf(room))
  }

  /** Position `p` is the first card that qualifies for the room. */
  ghost predicate FirstFound(cards: seq<Node>, p: nat, room: string, areaId: string, strategy: string)
  {
    && p < |cards|
    && Qualifies(cards[p], room, areaId, strategy)
    && forall j :: 0 <= j < p ==> !Qualifies(cards[j], room, areaId, strategy)
  }

  /** Every room's own stack is found for that room. */
  ghost predicate SelfFinding(rooms: seq<string>, make: (string, string) -> Node, strategy: string)
  {
    forall r :: r in rooms ==> Qualifies(make(r, SlugOf(r)), r, SlugOf(r), strategy)
  }

  /** No room's stack is found for another room of the run. */
  ghost predicate Apart(rooms: seq<string>, make: (string, string) -> Node, strategy: string)
  {
    forall r, r' :: r in rooms && r' in rooms && r != r' ==> !Qualifies(make(r', SlugOf(r')), r, SlugOf(r), strategy)
  }

  /** The matcher's first hit is the first qualifying card. */
  lemma MatchFirst(cards: seq<Node>, room: string, areaId: string, strategy: string, p: nat)
    requires KnownStrategy(strategy) && FirstFound(cards, p, room, areaId, strategy)
    ensures MatchIn(cards, room, areaId, strategy) == Ok(MatchIn(cards, room, areaId, strategy).value)
    ensures MatchIn(cards, room, areaId, strategy).value.index == Some(p)
  {
    MatchInSpec(cards, room, areaId, strategy);
  }

  /** Processing a room that finds its own stack settles it. */
  lemma StepSettles(root: Node, room: string, make: (string, string) -> Node, strategy: string)
    requires KnownStrategy(strategy) && GridCards(root).Some?
    requires Qualifies(make(room, SlugOf(room)), room, SlugOf(room), strategy)
    ensures Step(root, room, make, strategy).Ok?
    ensures GridCards(Step(root, room, make, strategy).value.0).Some?
    ensures Settled(GridCards(Step(root, room, make, strategy).value.0).value, room, make, strategy)
  {
    var cards := GridCards(root).value;
    var areaId := SlugOf(room);
    MatchInSpec(cards, room, areaId, strategy);
    var found := MatchIn(cards, room, areaId, strategy).value;
    var stack := make(room, areaId);
    var next := Placed(cards, stack, found.index);
    var p := PlacedAt(cards, found.index);
    SetCardsFacts(root, next);
    PlacedFacts(cards, stack, found.index);
    assert FirstFound(next, p, room, areaId, strategy);
  }

  /** Placing a stack that does not qualify anywhere but at the first hit keeps that hit first. */
  lemma PlacedKeepsFirst(cards: seq<Node>, stack: Node, index: Option<nat>, p: nat, room: string, areaId: string, strategy: string)
    requires index.Some? ==> index.value < |cards|
    requires FirstFound(cards, p, room, areaId, strategy) && index != Some(p)
    requires !Qualifies(stack, room, areaId, strategy)
    ensures FirstFound(Placed(cards, stack, index), p, room, areaId, strategy)
    ensures Placed(cards, stack, index)[p] == cards[p]
  {
    PlacedFacts(cards, stack, index);
  }

  /** Processing another room keeps a settled room settled when neither stack is found for the other room. */
  lemma StepKeeps(root: Node, other: string, room: string, make: (string, string) -> Node, strategy: string)
    requires KnownStrategy(strategy) && GridCards(root).Some?
    requires Settled(GridCards(root).value, room, make, strategy)
    requires !Qualifies(make(room, SlugOf(room)), other, SlugOf(other), strategy)
    requires !Qualifies(make(other, SlugOf(other)), room, SlugOf(room), strategy)
    ensures Step(root, other, make, strategy).Ok?
    ensures GridCards(Step(root, other, make, strategy).value.0).Some?
    ensures Settled(GridCards(Step(root, other, make, strategy).value.0).value, room, make, strategy)
  {
    var cards := GridCards(root).value;
    var areaId := SlugOf(room);
    var p :| 0 <= p < |cards| && FirstFound(cards, p, room, areaId, strategy) && cards[p] == make(room, areaId);
    var otherId := SlugOf(other);
    MatchInSpec(cards, other, otherId, strategy);
    var found := MatchIn(cards, other, otherId, strategy).value;
    assert found.index != Some(p);
    var next := Placed(cards, make(other, otherId), found.index);
    SetCardsFacts(root, next);
    PlacedKeepsFirst(cards, make(other, otherId), found.index, p, room, areaId, strategy);
  }

  /**
   * A run over rooms drawn from a self-finding, apart set settles each of
   * its rooms and keeps every room settled before it settled.
   */
  lemma {:induction false} ProcessSettles(root: Node, rooms: seq<string>, done: seq<string>, all: seq<string>,
                                          make: (string, string) -> Node, strategy: string)
    requires KnownStrategy(strategy) && GridCards(root).Some?
    requires SelfFinding(all, make, strategy) && Apart(all, make, strategy)
    requires forall r :: r in rooms ==> r in all
    requires forall r :: r in done ==> r in all && Settled(GridCards(root).value, r, make, strategy)
    ensures var o := Process(root, rooms, make, strategy);
      && o.reports.Ok?
      && GridCards(o.grid).Some?
      && forall r :: r in done || r in rooms ==> Settled(GridCards(o.grid).value, r, make, strategy)
    decreases |rooms|
  {
    if rooms != [] {
      var room := rooms[0];
      StepSettlesAll(root, room, done, all, make, strategy);
      var next := Step(root, room, make, strategy).value.0;
      TailMembers(rooms);
      ProcessSettles(next, rooms[1..], done + [room], all, make, strategy);
    }
  }

  /** One room of the run settles it and keeps the rooms settled before it settled. */
  lemma StepSettlesAll(root: Node, room: string, done: seq<string>, all: seq<string>,
                       make: (string, string) -> Node, strategy: string)
    requires KnownStrategy(strategy) && GridCards(root).Some?
    requires SelfFinding(all, make, strategy) && Apart(all, make, strategy)
    requires room in all
    requires forall r :: r in done ==> r in all && Settled(GridCards(root).value, r, make, strategy)
    ensures Step(root, room, make, strategy).Ok?
    ensures var next := Step(root, room, make, strategy).value.0;
      && GridCards(next).Some?
      && forall r :: r in done + [room] ==> r in all && Settled(GridCards(next).value, r, make, strategy)
  {
    StepSettles(root, room, make, strategy);
    var next := Step(root, room, make, strategy).value.0;
    forall r | r in done && r != room ensures Settled(GridCards(next).value, r, make, strategy) {
      StepKeeps(root, room, r, make, strategy);
    }
  }

  /** The members of a non-empty sequence are its head and the members of its tail. */
  lemma TailMembers(xs: seq<string>)
    requires xs != []
    ensures forall x :: x in xs <==> x == xs[0] || x in xs[1..]
  {
    assert xs == [xs[0]] + xs[1..];
  }

  /** Processing a settled room writes its stack over itself: the grid does not change. */
  lemma StepFixed(root: Node, room: string, make: (string, string) -> Node, strategy: string)
    requires KnownStrategy(strategy) && GridCards(root).Some?
    requires Settled(GridCards(root).value, room, make, strategy)
    ensures Step(root, room, make, strategy).Ok?
    ensures Step(root, room, make, strategy).value.0 == root
  {
    var cards := GridCards(root).value;
    var areaId := SlugOf(room);
    var p :| 0 <= p < |cards| && FirstFound(cards, p, room, areaId, strategy) && cards[p] == make(room, areaId);
    MatchFirst(cards, room, areaId, strategy, p);
    assert Placed(cards, make(room, areaId), Some(p)) == cards;
    PutSame(root.entries, "cards", Sequence(cards));
  }

  /** A run over settled rooms leaves the grid unchanged. */
  lemma {:induction false} ProcessFixed(root: Node, rooms: seq<string>, make: (string, string) -> Node, strategy: string)
    requires KnownStrategy(strategy) && GridCards(root).Some?
    requires forall r :: r in rooms ==> Settled(GridCards(root).value, r, make, strategy)
    ensures Process(root, rooms, make, strategy).reports.Ok?
    ensures Process(root, rooms, make, strategy).grid == root
    decreases |rooms|
  {
    if rooms != [] {
      StepFixed(root, rooms[0], make, strategy);
      forall r | r in rooms[1..] ensures Settled(GridCards(root).value, r, make, strategy) {
        assert r in rooms;
      }
      ProcessFixed(root, rooms[1..], make, strategy);
    }
  }

  /**
   * Idempotence of the merge: when every room's stack is found for that
   * room and for no other room of the run, running the same rooms again on
   * the merged grid succeeds and leaves it unchanged.
   */
  lemma Idempotent(root: Node, rooms: seq<string>, make: (string, string) -> Node, strategy: string)
    requires KnownStrategy(strategy) && GridCards(root).Some?
    requires SelfFinding(rooms, make, strategy) && Apart(rooms, make, strategy)
    ensures var once := Process(root, rooms, make, strategy);
      && once.reports.Ok?
      && Process(once.grid, rooms, make, strategy).reports.Ok?
      && Process(once.grid, rooms, make, strategy).grid == once.grid
  {
    ProcessSettles(root, rooms, [], rooms, make, strategy);
    var once := Process(root, rooms, make, strategy);
    ProcessFixed(once.grid, rooms, make, strategy);
  }

  /** What a strategy tells rooms apart by. */
  function RoomKey(room: string, strategy: string): string
  {
    if strategy == "name" then NormaliseRoom(room) else SlugOf(room)
  }

  /** A bubble-card template carrying what the strategy reads yields stacks found for their own room. */
  lemma TemplateSelfFinding(rooms: seq<string>, template: Node, icons: Option<map<string, string>>, strategy: string)
    requires IsBubblePopup(template) && Carries(template, strategy)
    requires strategy == "area" ==> forall r :: r in rooms ==> SlugOf(r) != ""
    ensures SelfFinding(rooms, Maker(template, icons), strategy)
  {
    forall r | r in rooms ensures Qualifies(Instantiate(template, r, SlugOf(r), icons), r, SlugOf(r), strategy) {
      InstantiateQualifies(template, r, SlugOf(r), icons, strategy);
    }
  }

  /** A room whose key differs from another's never finds the other's stack. */
  lemma KeysDiffer(template: Node, icons: Option<map<string, string>>, made: string, room: string, strategy: string)
    requires IsBubblePopup(template)
    requires RoomKey(made, strategy) != RoomKey(room, strategy)
    ensures !Qualifies(Instantiate(template, made, SlugOf(made), icons), room, SlugOf(room), strategy)
  {
    if Qualifies(Instantiate(template, made, SlugOf(made), icons), room, SlugOf(room), strategy) {
      InstantiateIdentifies(template, made, SlugOf(made), icons, room, SlugOf(room), strategy);
    }
  }

  /** Rooms the strategy tells apart never find each other's stacks. */
  lemma TemplateApart(rooms: seq<string>, template: Node, icons: Option<map<string, string>>, strategy: string)
    requires IsBubblePopup(template)
    requires forall r, r' :: r in rooms && r' in rooms && r != r' ==> RoomKey(r, strategy) != RoomKey(r', strategy)
    ensures Apart(rooms, Maker(template, icons), strategy)
  {
    forall r, r' | r in rooms && r' in rooms && r != r'
      ensures !Qualifies(Instantiate(template, r', SlugOf(r'), icons), r, SlugOf(r), strategy)
    {
      KeysDiffer(template, icons, r', r, strategy);
    }
  }

  /**
   * Idempotence for the stacks the template yields: the template carries
   * what the strategy reads, the strategy tells the rooms apart, and for
   * `area` no room's area id is empty.
   */
  lemma TemplateIdempotent(root: Node, rooms: seq<string>, template: Node, icons: Option<map<string, string>>, strategy: string)
    requires KnownStrategy(strategy) && GridCards(root).Some?
    requires IsBubblePopup(template) && Carries(template, strategy)
    requires forall r, r' :: r in rooms && r' in rooms && r != r' ==> RoomKey(r, strategy) != RoomKey(r', strategy)
    requires strategy == "area" ==> forall r :: r in rooms ==> SlugOf(r) != ""
    ensures var make := Maker(template, icons);
      var once := Process(root, rooms, make, strategy);
      && once.reports.Ok?
      && Process(once.grid, rooms, make, strategy).reports.Ok?
      && Process(once.grid, rooms, make, strategy).grid == once.grid
  {
    TemplateSelfFinding(rooms, template, icons, strategy);
    TemplateApart(rooms, template, icons, strategy);
    Idempotent(root, rooms, Maker(template, icons), strategy);
  }

  /** Two rooms with different normalised names, under the `name` strategy. */
  lemma TwoRoomsIdempotent(root: Node, a: string, b: string, template: Node, icons: Option<map<string, string>>)
    requires GridCards(root).Some?
    requires IsBubblePopup(template) && HasKey(PopupCard(template).entries, "name")
    requires NormaliseRoom(a) != NormaliseRoom(b)
    ensures var make := Maker(template, icons);
      var once := Process(root, [a, b], make, "name");
      && once.reports.Ok?
      && Process(once.grid, [a, b], make, "name").reports.Ok?
      && Process(once.grid, [a, b], make, "name").grid == once.grid
  {
    var rooms := [a, b];
    forall r, r' | r in rooms && r' in rooms && r != r' ensures RoomKey(r, "name") != RoomKey(r', "name") {
      assert (r == a && r' == b) || (r == b && r' == a);
    }
    TemplateIdempotent(root, rooms, template, icons, "name");
  }

  /**
   * The idempotence scenario of `test_process_rooms_is_idempotent`: rooms "Saloon" and
   * "Wohnzimmer" under the `name` strategy, with a template whose pop-up
   * card has a `name` field, any icon map and any grid holding a card list.
   */
  lemma SaloonWohnzimmerIdempotent(root: Node, template: Node, icons: Option<map<string, string>>)
    requires GridCards(root).Some?
    requires IsBubblePopup(template) && HasKey(PopupCard(template).entries, "name")
    ensures var make := Maker(template, icons);
      var once := Process(root, ["Saloon", "Wohnzimmer"], make, "name");
      && once.reports.Ok?
      && Process(once.grid, ["Saloon", "Wohnzimmer"], make, "name").reports.Ok?
      && Process(once.grid, ["Saloon", "Wohnzimmer"], make, "name").grid == once.grid
  {
    SaloonNotWohnzimmer();
    TwoRoomsIdempotent(root, "Saloon", "Wohnzimmer", template, icons);
  }

  /** Rooms with the same key pass the same test: a strategy reads only the room's key. */
  lemma SameTest(c: Node, a: string, b: string, strategy: string)
    requires RoomKey(a, strategy) == RoomKey(b, strategy)
    ensures Qualifies(c, a, SlugOf(a), strategy) == Qualifies(c, b, SlugOf(b), strategy)
  {
  }

  /** Rooms with the same key have the same first qualifying card. */
  lemma SameFirst(cards: seq<Node>, p: nat, a: string, b: string, strategy: string)
    requires RoomKey(a, strategy) == RoomKey(b, strategy)
    requires FirstFound(cards, p, a, SlugOf(a), strategy)
    ensures FirstFound(cards, p, b, SlugOf(b), strategy)
  {
    SameTest(cards[p], a, b, strategy);
    forall j | 0 <= j < p ensures !Qualifies(cards[j], b, SlugOf(b), strategy) {
      SameTest(cards[j], a, b, strategy);
    }
  }

  /** A room whose first qualifying card is at `p` writes its stack there. */
  lemma StepAt(root: Node, room: string, make: (string, string) -> Node, strategy: string, p: nat)
    requires KnownStrategy(strategy) && GridCards(root).Some?
    requires FirstFound(GridCards(root).value, p, room, SlugOf(room), strategy)
    ensures Step(root, room, make, strategy).Ok?
    ensures var cards := GridCards(root).value[p := make(room, SlugOf(room))];
      Step(root, room, make, strategy).value.0 == SetCards(root, cards) && GridCards(SetCards(root, cards)) == Some(cards)
  {
    var cards := GridCards(root).value;
    MatchFirst(cards, room, SlugOf(room), strategy, p);
    SetCardsFacts(root, cards[p := make(room, SlugOf(room))]);
  }

  /** Writing a stack that qualifies for the room over its first hit keeps that hit first. */
  lemma WriteKeepsFirst(cards: seq<Node>, p: nat, stack: Node, room: string, strategy: string)
    requires FirstFound(cards, p, room, SlugOf(room), strategy)
    requires Qualifies(stack, room, SlugOf(room), strategy)
    ensures FirstFound(cards[p := stack], p, room, SlugOf(room), strategy)
  {
  }

  /** A run of two rooms is their two steps, one after the other. */
  lemma ProcessPair(root: Node, a: string, b: string, make: (string, string) -> Node, strategy: string)
    requires Step(root, a, make, strategy).Ok?
    requires Step(Step(root, a, make, strategy).value.0, b, make, strategy).Ok?
    ensures Process(root, [a, b], make, strategy).reports.Ok?
    ensures Process(root, [a, b], make, strategy).grid == Step(Step(root, a, make, strategy).value.0, b, make, strategy).value.0
  {
    var first := Step(root, a, make, strategy).value;
    var second := Step(first.0, b, make, strategy).value;
    assert [a, b][1..] == [b] && [b][1..] == [];
    assert Process(second.0, [], make, strategy) == Outcome(second.0, Ok([]));
    assert Process(first.0, [b], make, strategy) == After([second.1], Outcome(second.0, Ok([])));
    assert Process(root, [a, b], make, strategy) == After([first.1], Process(first.0, [b], make, strategy));
  }

  /** The first run of two rooms with one key leaves the second room's stack at their common first hit. */
  lemma SameKeyFirstRun(root: Node, a: string, b: string, make: (string, string) -> Node, strategy: string) returns (p: nat)
    requires KnownStrategy(strategy) && GridCards(root).Some?
    requires RoomKey(a, strategy) == RoomKey(b, strategy)
    requires Qualifies(make(a, SlugOf(a)), a, SlugOf(a), strategy) && Qualifies(make(b, SlugOf(b)), b, SlugOf(b), strategy)
    ensures var once := Process(root, [a, b], make, strategy);
      && once.reports.Ok? && GridCards(once.grid).Some?
      && FirstFound(GridCards(once.grid).value, p, b, SlugOf(b), strategy)
      && GridCards(once.grid).value[p] == make(b, SlugOf(b))
  {
    StepSettles(root, a, make, strategy);
    var g1 := Step(root, a, make, strategy).value.0;
    var c1 := GridCards(g1).value;
    p :| 0 <= p < |c1| && FirstFound(c1, p, a, SlugOf(a), strategy) && c1[p] == make(a, SlugOf(a));
    SameFirst(c1, p, a, b, strategy);
    StepAt(g1, b, make, strategy, p);
    WriteKeepsFirst(c1, p, make(b, SlugOf(b)), b, strategy);
    ProcessPair(root, a, b, make, strategy);
  }

  /** A second run of the two rooms writes the first room's stack and then the second's back. */
  lemma SameKeySecondRun(root: Node, a: string, b: string, make: (string, string) -> Node, strategy: string, p: nat)
    requires KnownStrategy(strategy) && GridCards(root).Some?
    requires RoomKey(a, strategy) == RoomKey(b, strategy)
    requires Qualifies(make(a, SlugOf(a)), a, SlugOf(a), strategy)
    requires FirstFound(GridCards(root).value, p, b, SlugOf(b), strategy) && GridCards(root).value[p] == make(b, SlugOf(b))
    ensures Process(root, [a, b], make, strategy).reports.Ok?
    ensures Process(root, [a, b], make, strategy).grid == root
  {
    var c2 := GridCards(root).value;
    var sa := make(a, SlugOf(a));
    SameFirst(c2, p, b, a, strategy);
    StepAt(root, a, make, strategy, p);
    var c3 := c2[p := sa];
    var g3 := SetCards(root, c3);
    WriteKeepsFirst(c2, p, sa, a, strategy);
    SameFirst(c3, p, a, b, strategy);
    StepAt(g3, b, make, strategy, p);
    WriteBack(root, p, sa);
    ProcessPair(root, a, b, make, strategy);
  }

  /** Writing a card over position `p` and then writing the old card back restores the grid. */
  lemma WriteBack(root: Node, p: nat, c: Node)
    requires GridCards(root).Some? && p < |GridCards(root).value|
    ensures var cards := GridCards(root).value;
      SetCards(SetCards(root, cards[p := c]), cards[p := c][p := cards[p]]) == root
  {
    var cards := GridCards(root).value;
    assert cards[p := c][p := cards[p]] == cards;
    PutTwice(root.entries, "cards", Sequence(cards[p := c]), Sequence(cards));
    PutSame(root.entries, "cards", Sequence(cards));
  }

  /**
   * Two rooms with the same key, a template carrying what the strategy
   * reads: both rooms write over one stack, and a second run writes the
   * first room's stack and then the second's over it again, so the grid
   * ends as the first run left it.  Telling the rooms apart is what the
   * general proof assumes, not what the code needs.
   */
  lemma SameKeyIdempotent(root: Node, a: string, b: string, template: Node, icons: Option<map<string, string>>, strategy: string)
    requires KnownStrategy(strategy) && GridCards(root).Some?
    requires IsBubblePopup(template) && Carries(template, strategy)
    requires RoomKey(a, strategy) == RoomKey(b, strategy)
    requires strategy == "area" ==> SlugOf(a) != ""
    ensures var make := Maker(template, icons);
      var once := Process(root, [a, b], make, strategy);
      && once.reports.Ok?
      && Process(once.grid, [a, b], make, strategy).reports.Ok?
      && Process(once.grid, [a, b], make, strategy).grid == once.grid
  {
    var make := Maker(template, icons);
    InstantiateQualifies(template, a, SlugOf(a), icons, strategy);
    InstantiateQualifies(template, b, SlugOf(b), icons, strategy);
    var p := SameKeyFirstRun(root, a, b, make, strategy);
    SameKeySecondRun(Process(root, [a, b], make, strategy).grid, a, b, make, strategy, p);
  }
}
