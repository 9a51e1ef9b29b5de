/**
 * Finding the pop-up stack that already stands for a room
 * (`_is_bubble_popup`, `_extract_area_from_node`, `find_existing_stack`).
 *
 * A grid card qualifies for a room when it is a Bubble Card pop-up stack
 * and, depending on the detection strategy, its pop-up card carries the
 * room's name, the room's canonical hash, or the room's area id somewhere
 * in its tree.
 */
module Matcher {
  import opened Tree
  import opened Slug

  /** The two ways the search can fail. */
  datatype Failure =
    | MalformedGrid                        // the grid's `cards` is not a list
    | UnknownStrategy(strategy: string)    // met at the first pop-up stack

  /** The first qualifying position and every later one. */
  datatype StackMatch = StackMatch(index: Option<nat>, duplicates: seq<nat>)

  /** The hash a room's pop-up is opened by: `#<area id>-popup`. */
  function CanonicalHash(areaId: string): string
  {
    "#" + areaId + "-popup"
  }

  /** Two area ids share a hash exactly when they are equal. */
  lemma HashInjective(a: string, b: string)
    ensures CanonicalHash(a) == CanonicalHash(b) <==> a == b
  {
    if CanonicalHash(a) == CanonicalHash(b) {
      var ha, hb := CanonicalHash(a), CanonicalHash(b);
      assert |a| == |b|;
      forall i | 0 <= i < |a| ensures a[i] == b[i] {
        assert ha[i + 1] == a[i] && hb[i + 1] == b[i];
      }
    }
  }

  /**
   * A vertical stack whose card list is non-empty and starts with a
   * `custom:bubble-card` of card type `pop-up`.  The card opening such a
   * stack is never a pop-up stack itself.
   */
  predicate IsBubblePopup(stack: Node)
    ensures IsBubblePopup(stack) ==>
      && stack.Mapping? && Get(stack.entries, "cards").Some? && Get(stack.entries, "cards").value.Sequence?
      && Get(stack.entries, "cards").value.items != []
      && !IsBubblePopup(Get(stack.entries, "cards").value.items[0])
  {
    && stack.Mapping?
    && Get(stack.entries, "type") == Some(Str("vertical-stack"))
    && match Get(stack.entries, "cards")
       case Some(Sequence(cs)) =>
         && cs != []
         && cs[0].Mapping?
         && Get(cs[0].entries, "type") == Some(Str("custom:bubble-card"))
         && Get(cs[0].entries, "card_type") == Some(Str("pop-up"))
       case _ => false
  }

  /** The pop-up card opening a pop-up stack. */
  function PopupCard(stack: Node): (r: Node)
    requires IsBubblePopup(stack)
    ensures r.Mapping? && Field(r, "card_type") == Some(Str("pop-up"))
  {
    Get(stack.entries, "cards").value.items[0]
  }

  /** The `area_id` string of a mapping's `target`, when the target is a mapping holding one. */
  function TargetAreaId(es: seq<Entry>): Option<string>
  {
    match Get(es, "target")
    case Some(Mapping(t)) =>
      (match Get(t, "area_id")
       case Some(Str(a)) => Some(a)
       case _ => None)
    case _ => None
  }

  /**
   * An area slot holding `a` somewhere in the tree: a string `area` value or
   * a string `target.area_id` value of some mapping.
   */
  ghost predicate HasSlot(n: Node, a: string)
  {
    match n
    case Mapping(es) =>
      || Get(es, "area") == Some(Str(a))
      || TargetAreaId(es) == Some(a)
      || exists i :: 0 <= i < |es| && HasSlot(es[i].value, a)
    case Sequence(xs) => exists i :: 0 <= i < |xs| && HasSlot(xs[i], a)
    case _ => false
  }

  /** Every area slot in the tree holds `a`. */
  ghost predicate AreaBound(n: Node, a: string)
  {
    match n
    case Mapping(es) =>
      && (Get(es, "area").Some? && Get(es, "area").value.Str? ==> Get(es, "area").value.text == a)
      && (TargetAreaId(es).Some? ==> TargetAreaId(es).value == a)
      && forall i :: 0 <= i < |es| ==> AreaBound(es[i].value, a)
    case Sequence(xs) => forall i :: 0 <= i < |xs| ==> AreaBound(xs[i], a)
    case _ => true
  }

  /**
   * The area a stack is bound to: the node's own string `area`, else its
   * target's string `area_id`, else the first non-empty area found among its
   * values (or items) in order.  An empty area found below the top is
   * passed over, one at the top is returned.
   */
  function ExtractArea(n: Node): (r: Option<string>)
    ensures r.Some? ==> HasSlot(n, r.value)
  {
    match n
    case Mapping(es) =>
      if Get(es, "area").Some? && Get(es, "area").value.Str? then Some(Get(es, "area").value.text)
      else if TargetAreaId(es).Some? then TargetAreaId(es)
      else ExtractFromEntries(es)
    case Sequence(xs) => ExtractFromItems(xs)
    case _ => None
  }

  function ExtractFromEntries(es: seq<Entry>): (r: Option<string>)
    ensures r.Some? ==> r.value != "" && exists i :: 0 <= i < |es| && HasSlot(es[i].value, r.value)
  {
    if es == [] then None
    else
      var x := ExtractArea(es[0].value);
      if x.Some? && x.value != "" then x
      else
        var rest := ExtractFromEntries(es[1..]);
        assert rest.Some? ==> exists i :: 0 <= i < |es| && HasSlot(es[i].value, rest.value) by {
          if rest.Some? {
            var i :| 0 <= i < |es[1..]| && HasSlot(es[1..][i].value, rest.value);
            assert HasSlot(es[i + 1].value, rest.value);
          }
        }
        rest
  }

  function ExtractFromItems(xs: seq<Node>): (r: Option<string>)
    ensures r.Some? ==> r.value != "" && exists i :: 0 <= i < |xs| && HasSlot(xs[i], r.value)
  {
    if xs == [] then None
    else
      var x := ExtractArea(xs[0]);
      if x.Some? && x.value != "" then x
      else
        var rest := ExtractFromItems(xs[1..]);
        assert rest.Some? ==> exists i :: 0 <= i < |xs| && HasSlot(xs[i], rest.value) by {
          if rest.Some? {
            var i :| 0 <= i < |xs[1..]| && HasSlot(xs[1..][i], rest.value);
            assert HasSlot(xs[i + 1], rest.value);
          }
        }
        rest
  }

  /** The search over the entries from position `i` on, one entry unfolded. */
  lemma EntriesFrom(es: seq<Entry>, i: nat)
    requires i < |es|
    ensures var x := ExtractArea(es[i].value);
      ExtractFromEntries(es[i..]) == if x.Some? && x.value != "" then x else ExtractFromEntries(es[i + 1..])
  {
    assert es[i..][0] == es[i] && es[i..][1..] == es[i + 1..];
  }

  /** The search over the items from position `i` on, one item unfolded. */
  lemma ItemsFrom(xs: seq<Node>, i: nat)
    requires i < |xs|
    ensures var x := ExtractArea(xs[i]);
      ExtractFromItems(xs[i..]) == if x.Some? && x.value != "" then x else ExtractFromItems(xs[i + 1..])
  {
    assert xs[i..][0] == xs[i] && xs[i..][1..] == xs[i + 1..];
  }

  /** `_extract_area_from_node`: the recursive search with its early returns. */
  method ExtractAreaFromNode(node: Node) returns (r: Option<string>)
    ensures r == ExtractArea(node)
    decreases node
  {
    match node {
      case Mapping(es) =>
        var area := Get(es, "area");
        if area.Some? && area.value.Str? {
          return Some(area.value.text);
        }
        if HasKey(es, "target") {
          var target := Get(es, "target").value;
          if target.Mapping? {
            var areaId := Get(target.entries, "area_id");
            if areaId.Some? && areaId.value.Str? {
              return Some(areaId.value.text);
            }
          }
        }
        var i := 0;
        while i < |es|
          invariant 0 <= i <= |es|
          invariant ExtractFromEntries(es[i..]) == ExtractFromEntries(es)
        {
          assert es[i] in es;
          var extracted := ExtractAreaFromNode(es[i].value);
          EntriesFrom(es, i);
          if extracted.Some? && extracted.value != "" {
            return extracted;
          }
          i := i + 1;
        }
        return None;
      case Sequence(xs) =>
        var i := 0;
        while i < |xs|
          invariant 0 <= i <= |xs|
          invariant ExtractFromItems(xs[i..]) == ExtractFromItems(xs)
        {
          assert xs[i] in xs;
          var extracted := ExtractAreaFromNode(xs[i]);
          ItemsFrom(xs, i);
          if extracted.Some? && extracted.value != "" {
            return extracted;
          }
          i := i + 1;
        }
        return None;
      case _ =>
        return None;
    }
  }

  /** A slot in a tree whose slots all hold `a` holds `a`. */
  lemma {:induction false} SlotAgrees(n: Node, a: string, x: string)
    requires AreaBound(n, a) && HasSlot(n, x)
    ensures x == a
  {
    match n
    case Mapping(es) =>
      if Get(es, "area") != Some(Str(x)) && TargetAreaId(es) != Some(x) {
        var i :| 0 <= i < |es| && HasSlot(es[i].value, x);
        SlotAgrees(es[i].value, a, x);
      }
    case Sequence(xs) =>
      var i :| 0 <= i < |xs| && HasSlot(xs[i], x);
      SlotAgrees(xs[i], a, x);
  }

  /** In a tree whose slots all hold `a`, the extracted area is `a` or nothing. */
  lemma ExtractBound(n: Node, a: string)
    requires AreaBound(n, a)
    ensures ExtractArea(n) == None || ExtractArea(n) == Some(a)
  {
    if ExtractArea(n).Some? {
      SlotAgrees(n, a, ExtractArea(n).value);
    }
  }

  /** ... and when it has a slot and `a` is not empty, extraction finds it. */
  lemma {:induction false} ExtractFinds(n: Node, a: string)
    requires AreaBound(n, a) && HasSlot(n, a) && a != ""
    ensures ExtractArea(n) == Some(a)
  {
    match n
    case Mapping(es) =>
      if !(Get(es, "area").Some? && Get(es, "area").value.Str?) && TargetAreaId(es).None? {
        EntriesFind(es, a);
      }
    case Sequence(xs) =>
      ItemsFind(xs, a);
  }

  lemma {:induction false} EntriesFind(es: seq<Entry>, a: string)
    requires forall i :: 0 <= i < |es| ==> AreaBound(es[i].value, a)
    requires exists i :: 0 <= i < |es| && HasSlot(es[i].value, a)
    requires a != ""
    ensures ExtractFromEntries(es) == Some(a)
  {
    ExtractBound(es[0].value, a);
    if HasSlot(es[0].value, a) {
      ExtractFinds(es[0].value, a);
    } else {
      var i :| 0 <= i < |es| && HasSlot(es[i].value, a);
      assert HasSlot(es[1..][i - 1].value, a);
      EntriesFind(es[1..], a);
    }
  }

  lemma {:induction false} ItemsFind(xs: seq<Node>, a: string)
    requires forall i :: 0 <= i < |xs| ==> AreaBound(xs[i], a)
    requires exists i :: 0 <= i < |xs| && HasSlot(xs[i], a)
    requires a != ""
    ensures ExtractFromItems(xs) == Some(a)
  {
    ExtractBound(xs[0], a);
    if HasSlot(xs[0], a) {
      ExtractFinds(xs[0], a);
    } else {
      var i :| 0 <= i < |xs| && HasSlot(xs[i], a);
      assert HasSlot(xs[1..][i - 1], a);
      ItemsFind(xs[1..], a);
    }
  }

  predicate KnownStrategy(strategy: string)
  {
    strategy == "name" || strategy == "hash" || strategy == "area"
  }

  /**
   * Whether `stack` stands for the room under a known detection strategy.
   * Only a pop-up stack qualifies, only under a known strategy, and under
   * `area` only a stack holding the area id in one of its area slots.
   */
  predicate Qualifies(stack: Node, room: string, areaId: string, strategy: string)
    ensures Qualifies(stack, room, areaId, strategy) ==> IsBubblePopup(stack) && KnownStrategy(strategy)
    ensures Qualifies(stack, room, areaId, strategy) && strategy == "area" ==> HasSlot(stack, areaId)
  {
    && IsBubblePopup(stack)
    && if strategy == "name" then
         (match Field(PopupCard(stack), "name")
          case Some(Str(name)) => NormaliseRoom(name) == NormaliseRoom(room)
          case _ => false)
       else if strategy == "hash" then
         Field(PopupCard(stack), "hash") == Some(Str(CanonicalHash(areaId)))
       else if strategy == "area" then
         ExtractArea(stack) == Some(areaId)
       else false
  }

  /** The positions of the cards passing `q`, in increasing order. */
  function Positions(cards: seq<Node>, q: Node -> bool): (r: seq<nat>)
    ensures forall i: nat :: i in r <==> i < |cards| && q(cards[i])
    ensures forall j, k :: 0 <= j < k < |r| ==> r[j] < r[k]
    ensures forall j :: 0 <= j < |r| ==> r[j] < |cards|
  {
    if cards == [] then []
    else
      var n := |cards| - 1;
      assert forall i :: 0 <= i < n ==> cards[..n][i] == cards[i];
      Positions(cards[..n], q) + (if q(cards[n]) then [n] else [])
  }

  /** `Qualifies` for one room, as a test on cards. */
  function Qualifier(room: string, areaId: string, strategy: string): Node -> bool
  {
    stack => Qualifies(stack, room, areaId, strategy)
  }

  /** The first position found, and the rest as duplicates. */
  function Summarise(m: seq<nat>): StackMatch
  {
    if m == [] then StackMatch(None, []) else StackMatch(Some(m[0]), m[1..])
  }

  predicate AnyPopup(cards: seq<Node>)
  {
    exists i :: 0 <= i < |cards| && IsBubblePopup(cards[i])
  }

  /**
   * The summary of the positions passing `q` names the first of them as the
   * index and exactly the later ones, in increasing order, as duplicates.
   */
  lemma SummariseFacts(cards: seq<Node>, q: Node -> bool)
    ensures var s := Summarise(Positions(cards, q));
      && (forall i :: 0 <= i < |cards| ==> (q(cards[i]) <==> s.index == Some(i) || i in s.duplicates))
      && (s.index.Some? ==>
            && s.index.value < |cards|
            && q(cards[s.index.value])
            && forall j :: 0 <= j < s.index.value ==> !q(cards[j]))
      && (s.index.None? ==> s.duplicates == [])
      && (forall j :: 0 <= j < |s.duplicates| ==> s.index.value < s.duplicates[j] < |cards|)
      && (forall j, k :: 0 <= j < k < |s.duplicates| ==> s.duplicates[j] < s.duplicates[k])
  {
    var m := Positions(cards, q);
    if m != [] {
      forall j | 0 <= j < m[0] ensures !q(cards[j]) {
        assert forall k :: 0 <= k < |m| ==> m[0] <= m[k];
      }
      forall i | 0 <= i < |cards| && q(cards[i]) ensures i == m[0] || i in m[1..] {
        var k :| 0 <= k < |m| && m[k] == i;
        if k > 0 {
          assert m[1..][k - 1] == i;
        }
      }
      forall j | 0 <= j < |m[1..]| ensures m[0] < m[1..][j] {
        assert m[1..][j] == m[j + 1];
      }
    }
  }

  /**
   * The search over a card list: the unknown-strategy failure when some card
   * is a pop-up stack, else the summary of the qualifying positions.
   */
  function MatchIn(cards: seq<Node>, room: string, areaId: string, strategy: string): Result<StackMatch, Failure>
  {
    if !KnownStrategy(strategy) && AnyPopup(cards) then Err(UnknownStrategy(strategy))
    else Ok(Summarise(Positions(cards, Qualifier(room, areaId, strategy))))
  }

  /**
   * The search fails exactly when the strategy is unknown and some card is
   * a pop-up stack; otherwise the index is the first qualifying position and
   * the duplicates are all later qualifying positions, in increasing order.
   */
  lemma MatchInSpec(cards: seq<Node>, room: string, areaId: string, strategy: string)
    ensures var r := MatchIn(cards, room, areaId, strategy);
      && (r.Err? <==> !KnownStrategy(strategy) && AnyPopup(cards))
      && (r.Err? ==> r.error == UnknownStrategy(strategy))
      && (r.Ok? ==> forall i :: 0 <= i < |cards| ==>
            (Qualifies(cards[i], room, areaId, strategy) <==> r.value.index == Some(i) || i in r.value.duplicates))
      && (r.Ok? && r.value.index.Some? ==>
            && r.value.index.value < |cards|
            && Qualifies(cards[r.value.index.value], room, areaId, strategy)
            && forall j :: 0 <= j < r.value.index.value ==> !Qualifies(cards[j], room, areaId, strategy))
      && (r.Ok? && r.value.index.None? ==> r.value.duplicates == [])
      && (r.Ok? ==> forall j :: 0 <= j < |r.value.duplicates| ==>
            r.value.index.value < r.value.duplicates[j] < |cards|)
      && (r.Ok? ==> forall j, k :: 0 <= j < k < |r.value.duplicates| ==>
            r.value.duplicates[j] < r.value.duplicates[k])
  {
    SummariseFacts(cards, Qualifier(room, areaId, strategy));
  }

  /** A match found is a position of the card list. */
  lemma MatchInBounds(cards: seq<Node>, room: string, areaId: string, strategy: string)
    ensures var r := MatchIn(cards, room, areaId, strategy);
      r.Ok? && r.value.index.Some? ==> r.value.index.value < |cards|
  {
    MatchInSpec(cards, room, areaId, strategy);
  }

  /** The grid's card list, when `cards` holds a list. */
  function GridCards(grid: Node): Option<seq<Node>>
  {
    match Field(grid, "cards")
    case Some(Sequence(cs)) => Some(cs)
    case _ => None
  }

  /** `find_existing_stack` as a value: malformed grids fail first. */
  function FindStack(grid: Node, room: string, areaId: string, strategy: string): Result<StackMatch, Failure>
  {
    match GridCards(grid)
    case None => Err(MalformedGrid)
    case Some(cards) => MatchIn(cards, room, areaId, strategy)
  }

  /** The summary after one more card, which qualifies when `hit`. */
  function Record(m: StackMatch, idx: nat, hit: bool): StackMatch
  {
    if !hit then m
    else if m.index.None? then StackMatch(Some(idx), m.duplicates)
    else StackMatch(m.index, m.duplicates + [idx])
  }

  /** The summary built card by card, as the search loop builds it. */
  function Scan(cards: seq<Node>, q: Node -> bool): StackMatch
  {
    if cards == [] then StackMatch(None, [])
    else Record(Scan(cards[..|cards| - 1], q), |cards| - 1, q(cards[|cards| - 1]))
  }

  lemma ScanStep(cards: seq<Node>, idx: nat, q: Node -> bool)
    requires idx < |cards|
    ensures Scan(cards[..idx + 1], q) == Record(Scan(cards[..idx], q), idx, q(cards[idx]))
  {
    assert cards[..idx + 1][..idx] == cards[..idx];
  }

  /** Building the summary card by card gives the summary of all qualifying positions. */
  lemma {:induction false} ScanSummarises(cards: seq<Node>, q: Node -> bool)
    ensures Scan(cards, q) == Summarise(Positions(cards, q))
  {
    if cards != [] {
      var n := |cards| - 1;
      ScanSummarises(cards[..n], q);
      var m := Positions(cards[..n], q);
      assert Scan(cards, q) == Record(Summarise(m), n, q(cards[n]));
      if q(cards[n]) {
        assert Positions(cards, q) == m + [n];
        if m != [] {
          assert (m + [n])[1..] == m[1..] + [n];
        }
      } else {
        assert Positions(cards, q) == m + [];
        assert m + [] == m;
      }
    }
  }

  /**
   * The loop body of `find_existing_stack` for one card: a card that is not
   * a pop-up stack is skipped (it does not qualify), and a pop-up stack is
   * tested by the strategy, an unknown strategy failing there.
   */
  method TestStack(stack: Node, room: string, areaId: string, strategy: string, wantedName: string, wantedHash: string)
    returns (r: Result<bool, Failure>)
    requires wantedName == NormaliseRoom(room) && wantedHash == CanonicalHash(areaId)
    ensures r.Ok? ==> r.value == Qualifier(room, areaId, strategy)(stack)
    ensures r.Err? <==> !KnownStrategy(strategy) && IsBubblePopup(stack)
    ensures r.Err? ==> r.error == UnknownStrategy(strategy)
  {
    if !IsBubblePopup(stack) {
      return Ok(false);
    }
    var first := PopupCard(stack);
    var hit := false;
    if strategy == "name" {
      var name := Field(first, "name");
      if name.Some? && name.value.Str? && NormaliseRoom(name.value.text) == wantedName {
        hit := true;
      }
    } else if strategy == "hash" {
      var hash := Field(first, "hash");
      if hash.Some? && hash.value.Str? && hash.value.text == wantedHash {
        hit := true;
      }
    } else if strategy == "area" {
      var area := ExtractAreaFromNode(stack);
      if area.Some? && area.value == areaId {
        hit := true;
      }
    } else {
      return Err(UnknownStrategy(strategy));
    }
    return Ok(hit);
  }

  /** A prefix without pop-up stacks grows by a card that is not one. */
  lemma NoPopupStep(cards: seq<Node>, idx: nat)
    requires idx < |cards| && !AnyPopup(cards[..idx]) && !IsBubblePopup(cards[idx])
    ensures !AnyPopup(cards[..idx + 1])
  {
    var longer := cards[..idx + 1];
    forall j | 0 <= j < |longer| ensures !IsBubblePopup(longer[j]) {
      if j < idx {
        assert longer[j] == cards[..idx][j];
      }
    }
  }

  /** The loop of `find_existing_stack`: one pass over the cards, recording every qualifying position. */
  method SearchCards(cards: seq<Node>, room: string, areaId: string, strategy: string)
    returns (r: Result<StackMatch, Failure>)
    ensures r == MatchIn(cards, room, areaId, strategy)
  {
    var wantedName := NormaliseRoom(room);
    var wantedHash := CanonicalHash(areaId);
    var found: Option<nat> := None;
    var duplicates: seq<nat> := [];
    ghost var q := Qualifier(room, areaId, strategy);
    var idx := 0;
    while idx < |cards|
      invariant 0 <= idx <= |cards|
      invariant StackMatch(found, duplicates) == Scan(cards[..idx], q)
      invariant !KnownStrategy(strategy) ==> !AnyPopup(cards[..idx])
    {
      ScanStep(cards, idx, q);
      var test := TestStack(cards[idx], room, areaId, strategy, wantedName, wantedHash);
      if test.Err? {
        assert IsBubblePopup(cards[idx]);
        return Err(test.error);
      }
      assert test.value == q(cards[idx]);
      if !KnownStrategy(strategy) {
        NoPopupStep(cards, idx);
      }
      if test.value {
        if found.None? {
          found := Some(idx);
        } else {
          duplicates := duplicates + [idx];
        }
      }
      idx := idx + 1;
    }
    assert cards[..|cards|] == cards;
    ScanSummarises(cards, q);
    return Ok(StackMatch(found, duplicates));
  }

  /** `find_existing_stack`: a grid without a card list is malformed, else the cards are searched. */
  method FindExistingStack(grid: Node, room: string, areaId: string, strategy: string)
    returns (r: Result<StackMatch, Failure>)
    ensures r == FindStack(grid, room, areaId, strategy)
  {
    var field := Field(grid, "cards");
    if !(field.Some? && field.value.Sequence?) {
      return Err(MalformedGrid);
    }
    r := SearchCards(field.value.items, room, areaId, strategy);
  }
}
