/**
 * Turning the pop-up template into the stack for one room
 * (`_replace_placeholders`, `_apply_area_heuristics`, `deep_apply_template`).
 *
 * The template is copied, its placeholder strings are replaced, every area
 * slot is bound to the room's area id, and the pop-up card's name, hash and
 * icon are overridden.  Trees are values here, so the copy is implicit and
 * each in-place pass returns the updated tree.
 */
module Template {
  import opened Tree
  import opened Slug
  import opened Matcher

  const AreaNameToken := "__AREA_NAME__"
  const AreaIdToken := "__AREA_ID__"
  const HashToken := "__HASH__"
  const IconToken := "__ICON__"

  /** The replacement table built for a room. */
  function Replacements(room: string, areaId: string): map<string, string>
  {
    map[AreaNameToken := room, AreaIdToken := areaId, HashToken := CanonicalHash(areaId)]
  }

  /** What one string leaf becomes: a table entry first, then the icon placeholder when an icon is known. */
  function Resolve(s: string, replacements: map<string, string>, icon: Option<string>): string
  {
    if s in replacements then replacements[s]
    else if s == IconToken && icon.Some? then icon.value
    else s
  }

  /** A leaf that is the icon placeholder and is replaced by the icon. */
  predicate ConsumesIcon(s: string, replacements: map<string, string>, icon: Option<string>)
  {
    s !in replacements && s == IconToken && icon.Some?
  }

  /** Some leaf of the tree consumes the icon. */
  predicate IconUsed(n: Node, replacements: map<string, string>, icon: Option<string>)
  {
    match n
    case Mapping(es) => exists i :: 0 <= i < |es| && IconUsed(es[i].value, replacements, icon)
    case Sequence(xs) => exists i :: 0 <= i < |xs| && IconUsed(xs[i], replacements, icon)
    case Str(s) => ConsumesIcon(s, replacements, icon)
    case Scalar(_) => false
  }

  /** The tree with every string leaf resolved; keys, order and shape are kept. */
  function Substitute(n: Node, replacements: map<string, string>, icon: Option<string>): Node
  {
    match n
    case Mapping(es) =>
      Mapping(seq(|es|, i requires 0 <= i < |es| => Entry(es[i].key, Substitute(es[i].value, replacements, icon))))
    case Sequence(xs) =>
      Sequence(seq(|xs|, i requires 0 <= i < |xs| => Substitute(xs[i], replacements, icon)))
    case Str(s) => Str(Resolve(s, replacements, icon))
    case Scalar(_) => n
  }

  /** `_replace_placeholders`: rewrites the leaves and reports whether the icon was used. */
  method ReplacePlaceholders(node: Node, replacements: map<string, string>, icon: Option<string>)
    returns (r: Node, consumed: bool)
    ensures r == Substitute(node, replacements, icon)
    ensures consumed == IconUsed(node, replacements, icon)
    decreases node
  {
    match node {
      case Str(s) =>
        if s in replacements {
          return Str(replacements[s]), false;
        }
        if s == IconToken {
          if icon.Some? {
            return Str(icon.value), true;
          }
          return node, false;
        }
        return node, false;
      case Mapping(es) =>
        var entries := es;
        consumed := false;
        var i := 0;
        while i < |es|
          invariant 0 <= i <= |es| && |entries| == |es|
          invariant forall j :: 0 <= j < i ==> entries[j] == Entry(es[j].key, Substitute(es[j].value, replacements, icon))
          invariant forall j :: i <= j < |es| ==> entries[j] == es[j]
          invariant consumed <==> exists j :: 0 <= j < i && IconUsed(es[j].value, replacements, icon)
        {
          assert es[i] in es;
          var replaced, used := ReplacePlaceholders(es[i].value, replacements, icon);
          if used {
            consumed := true;
          }
          entries := entries[i := Entry(es[i].key, replaced)];
          i := i + 1;
        }
        return Mapping(entries), consumed;
      case Sequence(xs) =>
        var items := xs;
        consumed := false;
        var i := 0;
        while i < |xs|
          invariant 0 <= i <= |xs| && |items| == |xs|
          invariant forall j :: 0 <= j < i ==> items[j] == Substitute(xs[j], replacements, icon)
          invariant forall j :: i <= j < |xs| ==> items[j] == xs[j]
          invariant consumed <==> exists j :: 0 <= j < i && IconUsed(xs[j], replacements, icon)
        {
          assert xs[i] in xs;
          var replaced, used := ReplacePlaceholders(xs[i], replacements, icon);
          if used {
            consumed := true;
          }
          items := items[i := replaced];
          i := i + 1;
        }
        return Sequence(items), consumed;
      case Scalar(_) =>
        return node, false;
    }
  }

  /** Without an icon no leaf consumes one. */
  lemma {:induction false} NoIconUnused(n: Node, replacements: map<string, string>)
    ensures !IconUsed(n, replacements, None)
  {
    match n
    case Mapping(es) =>
      forall i | 0 <= i < |es| ensures !IconUsed(es[i].value, replacements, None) {
        NoIconUnused(es[i].value, replacements);
      }
    case Sequence(xs) =>
      forall i | 0 <= i < |xs| ensures !IconUsed(xs[i], replacements, None) {
        NoIconUnused(xs[i], replacements);
      }
    case _ =>
  }

  /** Substitution only rewrites string text: the shape of the tree is unchanged. */
  lemma {:induction false} SubstituteSkeleton(n: Node, replacements: map<string, string>, icon: Option<string>)
    ensures Skeleton(Substitute(n, replacements, icon)) == Skeleton(n)
  {
    match n
    case Mapping(es) =>
      forall i | 0 <= i < |es| ensures Skeleton(Substitute(es[i].value, replacements, icon)) == Skeleton(es[i].value) {
        SubstituteSkeleton(es[i].value, replacements, icon);
      }
    case Sequence(xs) =>
      forall i | 0 <= i < |xs| ensures Skeleton(Substitute(xs[i], replacements, icon)) == Skeleton(xs[i]) {
        SubstituteSkeleton(xs[i], replacements, icon);
      }
    case _ =>
  }

  /**
   * Substitution commutes with navigation: the node at any position of the
   * result is the substituted node at that position of the input.  In
   * particular a string leaf `s` becomes the leaf `Resolve(s)`.
   */
  lemma {:induction false} SubstituteAt(n: Node, path: seq<nat>, replacements: map<string, string>, icon: Option<string>)
    ensures At(Substitute(n, replacements, icon), path) ==
      if At(n, path).Some? then Some(Substitute(At(n, path).value, replacements, icon)) else None
    decreases |path|
  {
    if path != [] {
      match n
      case Mapping(es) =>
        if path[0] < |es| {
          SubstituteAt(es[path[0]].value, path[1..], replacements, icon);
        }
      case Sequence(xs) =>
        if path[0] < |xs| {
          SubstituteAt(xs[path[0]], path[1..], replacements, icon);
        }
      case _ =>
    }
  }

  /** Only the three table tokens and, with an icon, the icon token are rewritten. */
  lemma ResolveKeeps(s: string, room: string, areaId: string, icon: Option<string>)
    requires s != AreaNameToken && s != AreaIdToken && s != HashToken
    requires s != IconToken || icon.None?
    ensures Resolve(s, Replacements(room, areaId), icon) == s
  {
  }

  /**
   * The tokens are replaced by the room, its area id and its hash; the icon
   * token by the icon when one is known and otherwise kept literally.
   */
  lemma ResolveTokens(room: string, areaId: string, icon: Option<string>)
    ensures var repl := Replacements(room, areaId);
      && Resolve(AreaNameToken, repl, icon) == room
      && Resolve(AreaIdToken, repl, icon) == areaId
      && Resolve(HashToken, repl, icon) == "#" + areaId + "-popup"
      && Resolve(IconToken, repl, icon) == (if icon.Some? then icon.value else IconToken)
  {
  }

  /** The target of a mapping with its `area_id` (when present) set to the area id. */
  function BindTarget(target: Node, areaId: string): (r: Node)
    requires target.Mapping?
    ensures r.Mapping? && Size(r) <= Size(target)
  {
    PutStrSize(target.entries, "area_id", areaId);
    Mapping(Put(target.entries, "area_id", Str(areaId)))
  }

  /** One entry after the area pass. */
  function ForceEntry(e: Entry, areaId: string): (r: Entry)
    ensures r.key == e.key
    decreases Size(e.value), 1
  {
    if e.key == "area" then Entry(e.key, Str(areaId))
    else if e.key == "target" && e.value.Mapping? then Entry(e.key, ForceArea(BindTarget(e.value, areaId), areaId))
    else Entry(e.key, ForceArea(e.value, areaId))
  }

  /**
   * The area pass: every `area` value becomes the area id, every mapping
   * target's `area_id` does too, and the pass descends into everything else.
   */
  function ForceArea(n: Node, areaId: string): Node
    decreases Size(n), 0
  {
    match n
    case Mapping(es) =>
      Mapping(seq(|es|, i requires 0 <= i < |es| => EntrySizeBound(es, i); ForceEntry(es[i], areaId)))
    case Sequence(xs) =>
      Sequence(seq(|xs|, i requires 0 <= i < |xs| => ItemSizeBound(xs, i); ForceArea(xs[i], areaId)))
    case _ => n
  }

  /** `_apply_area_heuristics`: the area pass, entry by entry and item by item. */
  method ApplyAreaHeuristics(node: Node, areaId: string) returns (r: Node)
    ensures r == ForceArea(node, areaId)
    decreases Size(node)
  {
    match node {
      case Mapping(es) =>
        var entries := es;
        var i := 0;
        while i < |es|
          invariant 0 <= i <= |es| && |entries| == |es|
          invariant forall j :: 0 <= j < i ==> entries[j] == ForceEntry(es[j], areaId)
          invariant forall j :: i <= j < |es| ==> entries[j] == es[j]
        {
          var key, value := es[i].key, es[i].value;
          EntrySizeBound(es, i);
          if key == "area" {
            entries := entries[i := Entry(key, Str(areaId))];
          } else if key == "target" && value.Mapping? {
            var target := value;
            if HasKey(target.entries, "area_id") {
              target := Mapping(Put(target.entries, "area_id", Str(areaId)));
            }
            assert target == BindTarget(value, areaId);
            var forced := ApplyAreaHeuristics(target, areaId);
            entries := entries[i := Entry(key, forced)];
          } else {
            var forced := ApplyAreaHeuristics(value, areaId);
            entries := entries[i := Entry(key, forced)];
          }
          i := i + 1;
        }
        return Mapping(entries);
      case Sequence(xs) =>
        var items := xs;
        var i := 0;
        while i < |xs|
          invariant 0 <= i <= |xs| && |items| == |xs|
          invariant forall j :: 0 <= j < i ==> items[j] == ForceArea(xs[j], areaId)
          invariant forall j :: i <= j < |xs| ==> items[j] == xs[j]
        {
          ItemSizeBound(xs, i);
          var forced := ApplyAreaHeuristics(xs[i], areaId);
          items := items[i := forced];
          i := i + 1;
        }
        return Sequence(items);
      case _ =>
        return node;
    }
  }

  /** The entries of a mapping after the substitution, looked up by key. */
  lemma SubstituteGet(es: seq<Entry>, k: string, replacements: map<string, string>, icon: Option<string>)
    ensures var r := Substitute(Mapping(es), replacements, icon).entries;
      && SameKeys(r, es)
      && Get(r, k) == if Get(es, k).Some? then Some(Substitute(Get(es, k).value, replacements, icon)) else None
  {
    var r := Substitute(Mapping(es), replacements, icon).entries;
    SameKeysIndexOf(r, es, k);
  }

  /** The entries of a mapping after the area pass, looked up by key. */
  lemma ForceGet(es: seq<Entry>, k: string, areaId: string)
    ensures var r := ForceArea(Mapping(es), areaId).entries;
      && SameKeys(r, es)
      && Get(r, k) == if Get(es, k).Some? then Some(ForceEntry(Entry(k, Get(es, k).value), areaId).value) else None
  {
    var r := ForceArea(Mapping(es), areaId).entries;
    SameKeysIndexOf(r, es, k);
  }

  /** After the area pass every area slot of the tree holds the area id. */
  lemma {:induction false} ForceAreaBound(n: Node, areaId: string)
    ensures AreaBound(ForceArea(n, areaId), areaId)
    decreases Size(n)
  {
    match n
    case Mapping(es) =>
      var r := ForceArea(n, areaId).entries;
      ForceGet(es, "area", areaId);
      ForceGet(es, "target", areaId);
      match Get(es, "target") {
        case Some(Mapping(t)) =>
          ForceGet(BindTarget(Mapping(t), areaId).entries, "area_id", areaId);
        case _ =>
      }
      forall i | 0 <= i < |es| ensures AreaBound(r[i].value, areaId) {
        EntrySizeBound(es, i);
        if es[i].key == "area" {
        } else if es[i].key == "target" && es[i].value.Mapping? {
          ForceAreaBound(BindTarget(es[i].value, areaId), areaId);
        } else {
          ForceAreaBound(es[i].value, areaId);
        }
      }
    case Sequence(xs) =>
      forall i | 0 <= i < |xs| ensures AreaBound(ForceArea(xs[i], areaId), areaId) {
        ItemSizeBound(xs, i);
        ForceAreaBound(xs[i], areaId);
      }
    case _ =>
  }

  /**
   * Every `area` entry of every mapping holds exactly the area id as a
   * string, whatever it held before, and so does the `area_id` of every
   * mapping `target` that has one.
   */
  ghost predicate AreaForced(n: Node, a: string)
  {
    match n
    case Mapping(es) =>
      forall i :: 0 <= i < |es| ==>
        && (es[i].key == "area" ==> es[i].value == Str(a))
        && (es[i].key == "target" && es[i].value.Mapping? && HasKey(es[i].value.entries, "area_id") ==>
              Get(es[i].value.entries, "area_id") == Some(Str(a)))
        && AreaForced(es[i].value, a)
    case Sequence(xs) => forall i :: 0 <= i < |xs| ==> AreaForced(xs[i], a)
    case _ => true
  }

  /** The area pass forces every `area` entry and every target's `area_id`, at any depth. */
  lemma {:induction false} ForceAreaForced(n: Node, areaId: string)
    ensures AreaForced(ForceArea(n, areaId), areaId)
    decreases Size(n)
  {
    match n
    case Mapping(es) =>
      var r := ForceArea(n, areaId).entries;
      forall i | 0 <= i < |es|
        ensures && (r[i].key == "area" ==> r[i].value == Str(areaId))
                && (r[i].key == "target" && r[i].value.Mapping? && HasKey(r[i].value.entries, "area_id") ==>
                      Get(r[i].value.entries, "area_id") == Some(Str(areaId)))
                && AreaForced(r[i].value, areaId)
      {
        EntrySizeBound(es, i);
        var v := es[i].value;
        assert r[i] == ForceEntry(es[i], areaId);
        if es[i].key == "target" && v.Mapping? {
          var bound := BindTarget(v, areaId);
          assert r[i].value == ForceArea(bound, areaId);
          ForceGet(bound.entries, "area_id", areaId);
          SameKeysIndexOf(ForceArea(bound, areaId).entries, bound.entries, "area_id");
          if HasKey(bound.entries, "area_id") {
            assert Get(bound.entries, "area_id") == Some(Str(areaId));
            assert ForceEntry(Entry("area_id", Str(areaId)), areaId).value == Str(areaId);
            assert Get(ForceArea(bound, areaId).entries, "area_id") == Some(Str(areaId));
          }
          ForceAreaForced(bound, areaId);
        } else if es[i].key != "area" {
          ForceAreaForced(v, areaId);
        }
      }
    case Sequence(xs) =>
      forall i | 0 <= i < |xs| ensures AreaForced(ForceArea(xs[i], areaId), areaId) {
        ItemSizeBound(xs, i);
        ForceAreaForced(xs[i], areaId);
      }
    case _ =>
  }

  /** A write of a slot-free value under a key other than `area` and `target` keeps a tree area-bound. */
  lemma AreaBoundPut(es: seq<Entry>, k: string, v: Node, areaId: string)
    requires AreaBound(Mapping(es), areaId) && AreaBound(v, areaId)
    requires k != "area" && k != "target"
    ensures AreaBound(Mapping(Put(es, k, v)), areaId)
  {
    PutEntries(es, k, v);
  }

  /**
   * The pop-up card after the override (source lines 250-262): a present
   * `name` becomes the room, a present `hash` the canonical hash, a present
   * `icon` the icon when one is known; nothing else changes.
   */
  function OverrideBubble(es: seq<Entry>, room: string, areaId: string, icon: Option<string>): seq<Entry>
  {
    var named := Put(es, "name", Str(room));
    var hashed := Put(named, "hash", Str(CanonicalHash(areaId)));
    if icon.Some? then Put(hashed, "icon", Str(icon.value)) else hashed
  }

  /** What the override does, key by key. */
  lemma OverrideFields(es: seq<Entry>, room: string, areaId: string, icon: Option<string>)
    ensures var r := OverrideBubble(es, room, areaId, icon);
      && SameKeys(r, es)
      && (forall k :: IndexOf(r, k) == IndexOf(es, k))
      && Get(r, "name") == (if HasKey(es, "name") then Some(Str(room)) else None)
      && Get(r, "hash") == (if HasKey(es, "hash") then Some(Str(CanonicalHash(areaId))) else None)
      && Get(r, "icon") == (if HasKey(es, "icon") && icon.Some? then Some(Str(icon.value)) else Get(es, "icon"))
      && forall k :: k != "name" && k != "hash" && k != "icon" ==> Get(r, k) == Get(es, k)
  {
    var named := Put(es, "name", Str(room));
    var hashed := Put(named, "hash", Str(CanonicalHash(areaId)));
    assert HasKey(named, "hash") == HasKey(es, "hash");
    assert HasKey(hashed, "icon") == HasKey(es, "icon");
    assert Get(hashed, "icon") == Get(es, "icon");
    assert Get(hashed, "name") == Get(named, "name");
    forall k | k != "name" && k != "hash" && k != "icon"
      ensures Get(OverrideBubble(es, room, areaId, icon), k) == Get(es, k)
    {
      OverrideGet(es, room, areaId, icon, k);
    }
  }

  /**
   * Every entry of the overridden card is the old entry, or the room under
   * `name`, the canonical hash under `hash` or the known icon under `icon`.
   */
  lemma OverrideEntries(es: seq<Entry>, room: string, areaId: string, icon: Option<string>)
    ensures var r := OverrideBubble(es, room, areaId, icon);
      && |r| == |es|
      && forall j :: 0 <= j < |r| ==>
           || r[j] == es[j]
           || r[j] == Entry("name", Str(room))
           || r[j] == Entry("hash", Str(CanonicalHash(areaId)))
           || (icon.Some? && r[j] == Entry("icon", Str(icon.value)))
  {
    var named := Put(es, "name", Str(room));
    var hashed := Put(named, "hash", Str(CanonicalHash(areaId)));
    PutEntries(es, "name", Str(room));
    PutEntries(named, "hash", Str(CanonicalHash(areaId)));
    if icon.Some? {
      PutEntries(hashed, "icon", Str(icon.value));
    }
  }

  /** The stack with its first card, when that card is a mapping, overridden. */
  function Override(stack: Node, room: string, areaId: string, icon: Option<string>): Node
  {
    match Field(stack, "cards")
    case Some(Sequence(cs)) =>
      if cs != [] && cs[0].Mapping? then
        Mapping(Put(stack.entries, "cards", Sequence(cs[0 := Mapping(OverrideBubble(cs[0].entries, room, areaId, icon))])))
      else stack
    case _ => stack
  }

  /** The icon for a room: only a non-empty icon map is consulted, and a room it lacks has none. */
  function IconFor(icons: Option<map<string, string>>, room: string): (r: Option<string>)
    ensures r.Some? <==> icons.Some? && room in icons.value
    ensures r.Some? ==> r.value == icons.value[room]
  {
    if icons.Some? && |icons.value| > 0 then
      (if room in icons.value then Some(icons.value[room]) else None)
    else None
  }

  /** The stack the template yields for a room. */
  function Instantiate(template: Node, room: string, areaId: string, icons: Option<map<string, string>>): Node
  {
    var icon := IconFor(icons, room);
    Override(ForceArea(Substitute(template, Replacements(room, areaId), icon), areaId), room, areaId, icon)
  }

  /** The override of the pop-up card's entries, one present key at a time. */
  method OverrideCard(bubble: seq<Entry>, room: string, areaId: string, icon: Option<string>, consumed: bool)
    returns (es: seq<Entry>)
    requires consumed ==> icon.Some?
    ensures es == OverrideBubble(bubble, room, areaId, icon)
  {
    es := bubble;
    if HasKey(es, "name") {
      es := Put(es, "name", Str(room));
    } else {
      PutAbsent(es, "name", Str(room));
    }
    ghost var named := es;
    if HasKey(es, "hash") {
      es := Put(es, "hash", Str(CanonicalHash(areaId)));
    } else {
      PutAbsent(es, "hash", Str(CanonicalHash(areaId)));
    }
    assert es == Put(named, "hash", Str(CanonicalHash(areaId)));
    if HasKey(es, "icon") {
      if icon.Some? {
        es := Put(es, "icon", Str(icon.value));
      } else if consumed {
        // The icon placeholder is only consumed by a known icon.
        assert false;
      }
    } else if icon.Some? {
      PutAbsent(es, "icon", Str(icon.value));
    }
  }

  /** `deep_apply_template`: substitution, then the area pass, then the pop-up card override. */
  method DeepApplyTemplate(template: Node, room: string, areaId: string, icons: Option<map<string, string>>)
    returns (r: Node)
    ensures r == Instantiate(template, room, areaId, icons)
  {
    var stack := template;
    var icon: Option<string> := None;
    if icons.Some? && |icons.value| > 0 {
      icon := if room in icons.value then Some(icons.value[room]) else None;
    }
    assert icon == IconFor(icons, room);
    var replacements := Replacements(room, areaId);
    var consumed;
    stack, consumed := ReplacePlaceholders(stack, replacements, icon);
    if icon.None? {
      NoIconUnused(template, replacements);
    }
    stack := ApplyAreaHeuristics(stack, areaId);
    ghost var forced := stack;
    if stack.Mapping? {
      var cards := Get(stack.entries, "cards");
      if cards.Some? && cards.value.Sequence? && cards.value.items != [] {
        var bubble := cards.value.items[0];
        if bubble.Mapping? {
          var es := OverrideCard(bubble.entries, room, areaId, icon, consumed);
          stack := Mapping(Put(stack.entries, "cards", Sequence(cards.value.items[0 := Mapping(es)])));
        }
      }
    }
    assert stack == Override(forced, room, areaId, icon);
    return stack;
  }

  /** Substitution keeps a pop-up stack a pop-up stack and rewrites its card in place. */
  lemma SubstitutePopup(t: Node, room: string, areaId: string, icon: Option<string>)
    requires IsBubblePopup(t)
    ensures var s := Substitute(t, Replacements(room, areaId), icon);
      && IsBubblePopup(s)
      && PopupCard(s) == Substitute(PopupCard(t), Replacements(room, areaId), icon)
  {
    var replacements := Replacements(room, areaId);
    SubstituteGet(t.entries, "type", replacements, icon);
    SubstituteGet(t.entries, "cards", replacements, icon);
    ResolveKeeps("vertical-stack", room, areaId, icon);
    var card := PopupCard(t);
    SubstituteGet(card.entries, "type", replacements, icon);
    SubstituteGet(card.entries, "card_type", replacements, icon);
    ResolveKeeps("custom:bubble-card", room, areaId, icon);
    ResolveKeeps("pop-up", room, areaId, icon);
  }

  /** The area pass keeps a pop-up stack a pop-up stack and rewrites its card in place. */
  lemma ForcePopup(s: Node, areaId: string)
    requires IsBubblePopup(s)
    ensures IsBubblePopup(ForceArea(s, areaId))
    ensures PopupCard(ForceArea(s, areaId)) == ForceArea(PopupCard(s), areaId)
  {
    ForceGet(s.entries, "type", areaId);
    ForceGet(s.entries, "cards", areaId);
    var card := PopupCard(s);
    ForceGet(card.entries, "type", areaId);
    ForceGet(card.entries, "card_type", areaId);
  }

  /** The override keeps a pop-up stack a pop-up stack and overrides exactly its card. */
  lemma OverridePopup(f: Node, room: string, areaId: string, icon: Option<string>)
    requires IsBubblePopup(f)
    ensures IsBubblePopup(Override(f, room, areaId, icon))
    ensures PopupCard(Override(f, room, areaId, icon)) == Mapping(OverrideBubble(PopupCard(f).entries, room, areaId, icon))
  {
    OverrideFields(PopupCard(f).entries, room, areaId, icon);
  }

  /**
   * The stack made from a pop-up template is a pop-up stack whose card has
   * the template card's keys, the room as `name` and the canonical hash as
   * `hash` where the template has those keys, the room's icon as `icon`
   * where one is known, and the area id as `area` where the card has one.
   */
  lemma InstantiateCard(t: Node, room: string, areaId: string, icons: Option<map<string, string>>)
    requires IsBubblePopup(t)
    ensures var s := Instantiate(t, room, areaId, icons);
      && IsBubblePopup(s)
      && var b, b0 := PopupCard(s).entries, PopupCard(t).entries;
      && (forall k :: HasKey(b, k) <==> HasKey(b0, k))
      && Get(b, "name") == (if HasKey(b0, "name") then Some(Str(room)) else None)
      && Get(b, "hash") == (if HasKey(b0, "hash") then Some(Str(CanonicalHash(areaId))) else None)
      && (IconFor(icons, room).Some? && HasKey(b0, "icon") ==> Get(b, "icon") == Some(Str(IconFor(icons, room).value)))
      && (HasKey(b0, "area") ==> Get(b, "area") == Some(Str(areaId)))
  {
    var icon := IconFor(icons, room);
    var replacements := Replacements(room, areaId);
    var sub := Substitute(t, replacements, icon);
    SubstitutePopup(t, room, areaId, icon);
    ForcePopup(sub, areaId);
    var forced := ForceArea(sub, areaId);
    OverridePopup(forced, room, areaId, icon);
    var b0 := PopupCard(t).entries;
    var b1 := PopupCard(sub).entries;
    var b2 := PopupCard(forced).entries;
    OverrideFields(b2, room, areaId, icon);
    forall k ensures IndexOf(b2, k) == IndexOf(b0, k) {
      SubstituteGet(b0, k, replacements, icon);
      SameKeysIndexOf(b1, b0, k);
      ForceGet(b1, k, areaId);
      SameKeysIndexOf(b2, b1, k);
    }
    ForceGet(b1, "area", areaId);
  }

  /** The override writes strings under keys that are not area slots, so it keeps a tree area-bound. */
  lemma OverrideBound(f: Node, room: string, areaId: string, icon: Option<string>)
    requires AreaBound(f, areaId)
    ensures AreaBound(Override(f, room, areaId, icon), areaId)
  {
    match Field(f, "cards") {
      case Some(Sequence(cs)) =>
        if cs != [] && cs[0].Mapping? {
          var i := IndexOf(f.entries, "cards").value;
          assert AreaBound(f.entries[i].value, areaId);
          var named := Put(cs[0].entries, "name", Str(room));
          var hashed := Put(named, "hash", Str(CanonicalHash(areaId)));
          AreaBoundPut(cs[0].entries, "name", Str(room), areaId);
          AreaBoundPut(named, "hash", Str(CanonicalHash(areaId)), areaId);
          if icon.Some? {
            AreaBoundPut(hashed, "icon", Str(icon.value), areaId);
          }
          var cards := Sequence(cs[0 := Mapping(OverrideBubble(cs[0].entries, room, areaId, icon))]);
          assert AreaBound(cards, areaId);
          AreaBoundPut(f.entries, "cards", cards, areaId);
        }
      case _ =>
    }
  }

  /** Every area slot of an instantiated stack holds the room's area id, whatever the template held. */
  lemma InstantiateAreaBound(t: Node, room: string, areaId: string, icons: Option<map<string, string>>)
    ensures AreaBound(Instantiate(t, room, areaId, icons), areaId)
  {
    var icon := IconFor(icons, room);
    var forced := ForceArea(Substitute(t, Replacements(room, areaId), icon), areaId);
    ForceAreaBound(Substitute(t, Replacements(room, areaId), icon), areaId);
    OverrideBound(forced, room, areaId, icon);
  }

  /** Keys whose values neither the pop-up override nor the target binding rewrites. */
  predicate Protected(k: string)
  {
    k != "area_id" && k != "name" && k != "hash" && k != "icon"
  }

  /** A mapping whose `target` is a mapping with an `area_id` key. */
  predicate TargetBindable(es: seq<Entry>)
  {
    match Get(es, "target")
    case Some(Mapping(t)) => HasKey(t, "area_id")
    case _ => false
  }

  /**
   * Some mapping has an `area` key or a mapping `target` with an `area_id`
   * key, reached only through protected keys.
   */
  ghost predicate AreaKeyIn(n: Node)
  {
    match n
    case Mapping(es) =>
      || HasKey(es, "area")
      || TargetBindable(es)
      || exists i :: 0 <= i < |es| && Protected(es[i].key) && AreaKeyIn(es[i].value)
    case Sequence(xs) => exists i :: 0 <= i < |xs| && AreaKeyIn(xs[i])
    case _ => false
  }

  /**
   * Some mapping has `a` as its string `area` or as its target's string
   * `area_id`, reached only through protected keys.
   */
  ghost predicate SlotIn(n: Node, a: string)
  {
    match n
    case Mapping(es) =>
      || Get(es, "area") == Some(Str(a))
      || TargetAreaId(es) == Some(a)
      || exists i :: 0 <= i < |es| && Protected(es[i].key) && SlotIn(es[i].value, a)
    case Sequence(xs) => exists i :: 0 <= i < |xs| && SlotIn(xs[i], a)
    case _ => false
  }

  lemma {:induction false} SlotInHasSlot(n: Node, a: string)
    requires SlotIn(n, a)
    ensures HasSlot(n, a)
  {
    match n
    case Mapping(es) =>
      if Get(es, "area") != Some(Str(a)) && TargetAreaId(es) != Some(a) {
        var i :| 0 <= i < |es| && Protected(es[i].key) && SlotIn(es[i].value, a);
        SlotInHasSlot(es[i].value, a);
      }
    case Sequence(xs) =>
      var i :| 0 <= i < |xs| && SlotIn(xs[i], a);
      SlotInHasSlot(xs[i], a);
  }

  lemma {:induction false} SubstituteAreaKey(n: Node, replacements: map<string, string>, icon: Option<string>)
    requires AreaKeyIn(n)
    ensures AreaKeyIn(Substitute(n, replacements, icon))
  {
    match n
    case Mapping(es) =>
      SubstituteGet(es, "area", replacements, icon);
      SubstituteGet(es, "target", replacements, icon);
      if TargetBindable(es) {
        SubstituteGet(Get(es, "target").value.entries, "area_id", replacements, icon);
      }
      if !HasKey(es, "area") && !TargetBindable(es) {
        var i :| 0 <= i < |es| && Protected(es[i].key) && AreaKeyIn(es[i].value);
        SubstituteAreaKey(es[i].value, replacements, icon);
        assert Substitute(n, replacements, icon).entries[i] == Entry(es[i].key, Substitute(es[i].value, replacements, icon));
      }
    case Sequence(xs) =>
      var i :| 0 <= i < |xs| && AreaKeyIn(xs[i]);
      SubstituteAreaKey(xs[i], replacements, icon);
      assert Substitute(n, replacements, icon).items[i] == Substitute(xs[i], replacements, icon);
  }

  lemma BindAreaKey(target: Node, areaId: string)
    requires target.Mapping? && AreaKeyIn(target)
    ensures AreaKeyIn(BindTarget(target, areaId))
  {
    var es := target.entries;
    var r := BindTarget(target, areaId).entries;
    assert IndexOf(r, "area") == IndexOf(es, "area");
    assert Get(r, "target") == Get(es, "target");
    if !HasKey(es, "area") && !TargetBindable(es) {
      var i :| 0 <= i < |es| && Protected(es[i].key) && AreaKeyIn(es[i].value);
      PutEntries(es, "area_id", Str(areaId));
      assert r[i] == es[i];
    }
  }

  /** The area pass turns an area key into a slot holding the area id. */
  lemma {:induction false} ForceSlot(n: Node, areaId: string)
    requires AreaKeyIn(n)
    ensures SlotIn(ForceArea(n, areaId), areaId)
    decreases Size(n)
  {
    match n
    case Mapping(es) =>
      var r := ForceArea(n, areaId).entries;
      ForceGet(es, "area", areaId);
      if !HasKey(es, "area") && TargetBindable(es) {
        ForceTargetSlot(es, areaId);
      } else if !HasKey(es, "area") {
        var i :| 0 <= i < |es| && Protected(es[i].key) && AreaKeyIn(es[i].value);
        EntrySizeBound(es, i);
        assert r[i] == ForceEntry(es[i], areaId);
        if es[i].key == "target" && es[i].value.Mapping? {
          BindAreaKey(es[i].value, areaId);
          ForceSlot(BindTarget(es[i].value, areaId), areaId);
        } else {
          ForceSlot(es[i].value, areaId);
        }
        assert Protected(r[i].key) && SlotIn(r[i].value, areaId);
      }
    case Sequence(xs) =>
      var i :| 0 <= i < |xs| && AreaKeyIn(xs[i]);
      ItemSizeBound(xs, i);
      ForceSlot(xs[i], areaId);
      assert ForceArea(n, areaId).items[i] == ForceArea(xs[i], areaId);
  }

  /** The area pass binds a mapping target that has an `area_id` key. */
  lemma ForceTargetSlot(es: seq<Entry>, areaId: string)
    requires TargetBindable(es)
    ensures TargetAreaId(ForceArea(Mapping(es), areaId).entries) == Some(areaId)
  {
    var t := Get(es, "target").value;
    var bound := BindTarget(t, areaId);
    ForceGet(es, "target", areaId);
    ForceGet(bound.entries, "area_id", areaId);
    assert Get(bound.entries, "area_id") == Some(Str(areaId));
  }

  /** The override leaves an entry under a protected key as it was. */
  lemma OverrideKeeps(es: seq<Entry>, room: string, areaId: string, icon: Option<string>, i: nat)
    requires i < |es| && Protected(es[i].key)
    ensures i < |OverrideBubble(es, room, areaId, icon)| && OverrideBubble(es, room, areaId, icon)[i] == es[i]
  {
    var named := Put(es, "name", Str(room));
    var hashed := Put(named, "hash", Str(CanonicalHash(areaId)));
    PutEntries(es, "name", Str(room));
    PutEntries(named, "hash", Str(CanonicalHash(areaId)));
    assert named[i] == es[i];
    if icon.Some? {
      PutEntries(hashed, "icon", Str(icon.value));
    }
  }

  /** The override leaves the value under any other key than `name`, `hash` and `icon` as it was. */
  lemma OverrideGet(es: seq<Entry>, room: string, areaId: string, icon: Option<string>, k: string)
    requires k != "name" && k != "hash" && k != "icon"
    ensures Get(OverrideBubble(es, room, areaId, icon), k) == Get(es, k)
  {
    var named := Put(es, "name", Str(room));
    var hashed := Put(named, "hash", Str(CanonicalHash(areaId)));
    assert Get(named, k) == Get(es, k);
    assert Get(hashed, k) == Get(named, k);
  }

  lemma CardSlot(es: seq<Entry>, room: string, areaId: string, icon: Option<string>, a: string)
    requires SlotIn(Mapping(es), a)
    ensures SlotIn(Mapping(OverrideBubble(es, room, areaId, icon)), a)
  {
    var r := OverrideBubble(es, room, areaId, icon);
    if Get(es, "area") == Some(Str(a)) || TargetAreaId(es) == Some(a) {
      OverrideGet(es, room, areaId, icon, "area");
      OverrideGet(es, room, areaId, icon, "target");
    } else {
      var i :| 0 <= i < |es| && Protected(es[i].key) && SlotIn(es[i].value, a);
      OverrideKeeps(es, room, areaId, icon, i);
      assert Protected(r[i].key) && SlotIn(r[i].value, a);
    }
  }

  /** Writing a value that keeps whatever slot the old value had keeps a mapping's slot. */
  lemma PutSlot(es: seq<Entry>, k: string, v: Node, a: string)
    requires SlotIn(Mapping(es), a) && k != "area" && k != "target"
    requires Get(es, k).Some? && SlotIn(Get(es, k).value, a) ==> SlotIn(v, a)
    ensures SlotIn(Mapping(Put(es, k, v)), a)
  {
    var r := Put(es, k, v);
    assert Get(r, "target") == Get(es, "target");
    if Get(es, "area") != Some(Str(a)) && TargetAreaId(es) != Some(a) {
      var i :| 0 <= i < |es| && Protected(es[i].key) && SlotIn(es[i].value, a);
      if IndexOf(es, k) == Some(i) {
        assert r[i] == Entry(k, v);
      } else {
        assert r[i] == es[i];
      }
    }
  }

  /** Replacing the first item by one that keeps its slot keeps a sequence's slot. */
  lemma FirstSlot(cs: seq<Node>, c: Node, a: string)
    requires SlotIn(Sequence(cs), a) && cs != []
    requires SlotIn(cs[0], a) ==> SlotIn(c, a)
    ensures SlotIn(Sequence(cs[0 := c]), a)
  {
    var m :| 0 <= m < |cs| && SlotIn(cs[m], a);
    assert SlotIn(cs[0 := c][m], a);
  }

  /** The override writes only under unprotected keys, so it keeps every protected slot. */
  lemma OverrideSlot(f: Node, room: string, areaId: string, icon: Option<string>, a: string)
    requires SlotIn(f, a)
    ensures SlotIn(Override(f, room, areaId, icon), a)
  {
    match Field(f, "cards") {
      case Some(Sequence(cs)) =>
        if cs != [] && cs[0].Mapping? {
          var card := Mapping(OverrideBubble(cs[0].entries, room, areaId, icon));
          if SlotIn(cs[0], a) {
            CardSlot(cs[0].entries, room, areaId, icon, a);
          }
          if SlotIn(Sequence(cs), a) {
            FirstSlot(cs, card, a);
          }
          PutSlot(f.entries, "cards", Sequence(cs[0 := card]), a);
        }
      case _ =>
    }
  }

  /**
   * What a strategy reads and the instantiation keeps: the pop-up card's
   * `name` or `hash` field, or for `area` an `area` key or a mapping
   * target's `area_id` key reached through protected keys.
   */
  ghost predicate Carries(t: Node, strategy: string)
    requires IsBubblePopup(t)
  {
    || (strategy == "name" && HasKey(PopupCard(t).entries, "name"))
    || (strategy == "hash" && HasKey(PopupCard(t).entries, "hash"))
    || (strategy == "area" && AreaKeyIn(t))
  }

  /**
   * A stack made from a template that carries what the strategy reads is
   * found again for the room it was made for.
   */
  lemma InstantiateQualifies(t: Node, room: string, areaId: string, icons: Option<map<string, string>>, strategy: string)
    requires IsBubblePopup(t) && Carries(t, strategy)
    requires strategy == "area" ==> areaId != ""
    ensures Qualifies(Instantiate(t, room, areaId, icons), room, areaId, strategy)
  {
    var s := Instantiate(t, room, areaId, icons);
    InstantiateCard(t, room, areaId, icons);
    if strategy == "area" {
      var icon := IconFor(icons, room);
      var sub := Substitute(t, Replacements(room, areaId), icon);
      SubstituteAreaKey(t, Replacements(room, areaId), icon);
      ForceSlot(sub, areaId);
      OverrideSlot(ForceArea(sub, areaId), room, areaId, icon, areaId);
      SlotInHasSlot(s, areaId);
      InstantiateAreaBound(t, room, areaId, icons);
      ExtractFinds(s, areaId);
    }
  }

  /**
   * A template that binds the room only through a target's `area_id`, with
   * no `area` key anywhere, still carries what the `area` strategy reads.
   */
  lemma TargetOnlyTemplateCarries()
    ensures var popup := Mapping([Entry("type", Str("custom:bubble-card")), Entry("card_type", Str("pop-up"))]);
      var bound := Mapping([Entry("target", Mapping([Entry("area_id", Str("x"))]))]);
      var t := Mapping([Entry("type", Str("vertical-stack")), Entry("cards", Sequence([popup, bound]))]);
      IsBubblePopup(t) && Carries(t, "area")
  {
    var popup := Mapping([Entry("type", Str("custom:bubble-card")), Entry("card_type", Str("pop-up"))]);
    var target := [Entry("area_id", Str("x"))];
    var bound := Mapping([Entry("target", Mapping(target))]);
    var cards := [popup, bound];
    var es := [Entry("type", Str("vertical-stack")), Entry("cards", Sequence(cards))];
    assert IndexOf(es, "type") == Some(0);
    assert es[1..] == [Entry("cards", Sequence(cards))];
    assert IndexOf(es, "cards") == Some(1);
    assert IndexOf(popup.entries, "type") == Some(0);
    assert popup.entries[1..] == [Entry("card_type", Str("pop-up"))];
    assert IndexOf(popup.entries, "card_type") == Some(1);
    assert IndexOf(target, "area_id") == Some(0);
    assert IndexOf(bound.entries, "target") == Some(0);
    assert TargetBindable(bound.entries);
    assert AreaKeyIn(cards[1]);
    assert AreaKeyIn(Sequence(cards));
    assert Protected(es[1].key);
  }

  /**
   * A stack made for one room that is found for another: by name the two
   * rooms normalise alike, by hash or area they have the same area id.
   */
  lemma InstantiateIdentifies(t: Node, made: string, madeId: string, icons: Option<map<string, string>>,
                              room: string, areaId: string, strategy: string)
    requires IsBubblePopup(t)
    requires Qualifies(Instantiate(t, made, madeId, icons), room, areaId, strategy)
    ensures strategy == "name" ==> NormaliseRoom(made) == NormaliseRoom(room)
    ensures strategy != "name" ==> madeId == areaId
  {
    var s := Instantiate(t, made, madeId, icons);
    InstantiateCard(t, made, madeId, icons);
    if strategy == "hash" {
      HashInjective(madeId, areaId);
    } else if strategy == "area" {
      InstantiateAreaBound(t, made, madeId, icons);
      ExtractBound(s, madeId);
    }
  }
}
