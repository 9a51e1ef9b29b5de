# Lovelace pop-up merge engine, modelled in Dafny

This project models the merge engine of `ll_popups.py`. That engine keeps one
Bubble Card pop-up stack per room in a Home Assistant Lovelace `grid`
dashboard. For each room in a list it does four things:

- derives the room's area id (`slugify_area`);
- looks for the room's existing pop-up stack in the grid's `cards` list, by
  `name`, `hash` or `area` (`find_existing_stack`);
- instantiates the pop-up template for the room (`deep_apply_template`):
  placeholder tokens are substituted, every `area` / `target.area_id` slot is
  forced to the area id, and the pop-up card's `name`, `hash` and `icon` are
  overridden;
- replaces the stack it found or appends the new one (`replace_or_append`),
  collecting one report line per room (`process_rooms`).

The dashboard tree is the datatype `Tree.Node`: an ordered mapping of string
keys, a sequence, a string, or any other scalar. Key order is kept because
traversal order is observable. Lookups and writes act on the first entry with
a key, and a write never adds a key.

The source's shape is kept module by module:

- Loops become methods proved against specification functions: `SlugifyArea`,
  `SearchCards` / `FindExistingStack`, `ReplacePlaceholders`,
  `ApplyAreaHeuristics` and `DeepApplyTemplate`.
- The grid whose `cards` list `process_rooms` mutates is the class
  `Engine.Grid`. Its methods `ReplaceOrAppend` and `ProcessRooms` are proved
  against the functions `Placed`, `Step` and `Process`.
- Recursive searches and shape checks stay pure functions: `ExtractArea`,
  `IsBubblePopup`, `ValidateGrid`, `ValidateTemplate`.
- Errors the source raises become `Result` values: a grid without a `cards`
  list gives `MalformedGrid`, and an unknown strategy gives `UnknownStrategy`.

The main results:

- The matcher finds the first qualifying position and lists exactly the later
  ones as duplicates (`Matcher.MatchInSpec`).
- The area pass binds every area slot (`Template.ForceAreaForced`).
- The instantiated stack carries the room's name, hash and icon where the
  template's pop-up card has those fields, the icon only when the map holds
  one (`Template.InstantiateCard`).
- A run reports every room once, in order (`Engine.ProcessReports`).
- Running the same rooms twice leaves the grid unchanged
  (`Idempotence.Idempotent`, `Idempotence.TemplateIdempotent`), under
  conditions the source does not check (see below).

Modules: `Tree` (tree values), `Slug` (area ids and room keys), `Matcher`
(stack detection), `Template` (instantiation), `Validate` (input shape
checks), `Engine` (merge and the per-room loop) and `Idempotence`.

### Where the code is narrower than it looks

The model follows the code in each case.

- The docstring of `slugify_area` (ll_popups.py:68) calls its result a Home
  Assistant compatible slug. A reader may take that to mean `[a-z0-9_]` only,
  and stable under re-slugging. The code keeps every character `str.isalnum`
  accepts, such as `é` (`Slug.SlugAlphabet`; `Slug.SlugAscii` gives the
  ASCII-only bound for ASCII names). Re-slugging drops the underscores,
  because `_` is not alphanumeric (`Slug.SlugNotIdempotent`).
- `test_process_rooms_is_idempotent` (tests/test_ll_popups.py:155-167) checks
  that a second run changes nothing, for two rooms under `name`. The code
  needs every generated stack to be found again for its own room. This fails,
  for example, for a template without a `name` field under `name`, or for an
  empty area id under `area` when the stack's root holds no area slot. The
  second run then changes the grid: it appends a new copy, or replaces a later
  stack that still qualifies for the room.
  The general proof, `Idempotence.Idempotent`, also assumes that no generated
  stack is found for another room of the run, because it allows any stack
  maker. That is what the proof assumes, not what the code needs: two rooms
  with the same key (for example "A" and "a" under `name`) share one stack,
  and a second run rewrites it back (`Idempotence.SameKeyIdempotent`).
  `Idempotence.TemplateIdempotent` derives both conditions from the template's
  shape and distinct room keys.
- Without a match, `keep-index` appends exactly like `append`. The new stack's
  position is the list length before the append, which is the last index after
  it.

## Model

| member | source | states |
|---|---|---|
| Tree.Put | ll_popups.py:198-202 | a write keeps every key at its position, gives the written key the new value when it is present, never adds it, and keeps every other key's value |
| Slug.SlugifyArea | ll_popups.py:67-87 | the character loop yields `SlugOf(name)`: the strip-and-lowercase of the name, mapped piece by piece |
| Slug.PiecesAppend | ll_popups.py:76-86 | each character contributes its own piece independently, so the pieces of a concatenation are the concatenation of the pieces |
| Slug.SlugAlphabet | ll_popups.py:77-85 | every slug character is `_` or a lower-case alphanumeric (Latin-1 letters included) |
| Slug.SlugAscii | ll_popups.py:77-85 | for an ASCII name every slug character is in `[a-z0-9_]` |
| Slug.PlainSlug | ll_popups.py:77-83 | a name of lower-case letters and digits is its own slug |
| Slug.SlugWohnzimmer | tests/test_ll_popups.py:114 | "Wohnzimmer" slugs to "wohnzimmer" |
| Slug.SlugAussen | tests/test_ll_popups.py:115 | "Außen" slugs to "aussen" (ß expands to ss) |
| Slug.SlugGrosseKueche | tests/test_ll_popups.py:116 | "Große Küche" slugs to "grosse_kueche" (ß, ü expanded; space becomes `_`) |
| Slug.SlugNotIdempotent | ll_popups.py:81-86 | re-slugging "grosse_kueche" gives "grossekueche": slugging is not idempotent |
| Slug.StripInfix | ll_popups.py:77 | the stripped name is the infix of the name with only whitespace cut from both ends |
| Slug.NormaliseRoom | ll_popups.py:90-91 | the key has no whitespace at either end |
| Slug.NormaliseIdempotent | ll_popups.py:90-91 | normalising a room name twice gives the same key as once |
| Slug.NormaliseTrimsAndFolds | ll_popups.py:90-91 | leading whitespace and letter case do not change the key (" Saloon" and "saloon") |
| Slug.NormaliseFoldsSharpS | ll_popups.py:90-91 | case folding makes "Straße" and "STRASSE" the same key |
| Slug.KeyFirst | ll_popups.py:90-91 | a name not starting with whitespace has a key starting with its case-folded first letter |
| Slug.SaloonNotWohnzimmer | tests/test_ll_popups.py:158 | the two rooms of the idempotence scenario have different keys |
| Matcher.HashInjective | ll_popups.py:147 | two area ids give the same `#<area_id>-popup` hash exactly when they are equal |
| Matcher.IsBubblePopup | ll_popups.py:94-105 | a pop-up stack is a mapping with a non-empty `cards` list whose first card is not itself a pop-up stack |
| Matcher.PopupCard | ll_popups.py:94-105 | a pop-up stack's first card is a mapping with `card_type: pop-up` |
| Matcher.ExtractArea | ll_popups.py:108-127 | an area found is held by an area slot of the tree (an `area` string or a `target.area_id` string) |
| Matcher.ExtractAreaFromNode | ll_popups.py:108-127 | the recursive search with its early returns yields `ExtractArea`; empty strings found below the top are passed over |
| Matcher.ExtractBound | ll_popups.py:108-127 | in a tree whose area slots all hold `a`, the search finds `a` or nothing |
| Matcher.ExtractFinds | ll_popups.py:108-127 | in such a tree with a slot holding a non-empty `a`, the search finds `a` |
| Matcher.Qualifies | ll_popups.py:152-169 | only a pop-up stack qualifies, only under a known strategy, and under `area` only a stack holding the area id in an area slot |
| Matcher.TestStack | ll_popups.py:153-171 | a card that is not a pop-up stack never qualifies; a pop-up stack qualifies exactly under the strategy's criterion; an unknown strategy fails only at a pop-up stack |
| Matcher.SearchCards | ll_popups.py:146-179 | the loop over the cards yields `MatchIn`: the unknown-strategy failure, or the summary of the qualifying positions |
| Matcher.FindExistingStack | ll_popups.py:142-179 | a grid whose `cards` is not a list fails as malformed, otherwise the search result |
| Matcher.Positions | ll_popups.py:152-177 | the positions of qualifying cards: exactly those, strictly increasing, all in range |
| Matcher.ScanSummarises | ll_popups.py:149-177 | recording card by card (first hit as index, later ones as duplicates) gives the summary of the qualifying positions |
| Matcher.SummariseFacts | ll_popups.py:173-177 | the index is the smallest qualifying position; the duplicates are exactly the later ones, ascending; none qualifying gives no index and no duplicates |
| Matcher.MatchInSpec | ll_popups.py:152-179 | the search fails exactly when the strategy is unknown and some card is a pop-up stack; otherwise a position qualifies iff it is the index or a duplicate, the index is the first one, and duplicates ascend after it |
| Template.ResolveTokens | ll_popups.py:186-196 | the area name, area id and hash tokens become the room, its area id and `#<area_id>-popup`; the icon token becomes the icon when known and stays literal otherwise |
| Template.ResolveKeeps | ll_popups.py:186-196 | any other string is left as it is (only exact token matches are replaced) |
| Template.ReplacePlaceholders | ll_popups.py:186-211 | the in-place rewrite yields `Substitute` and reports whether some leaf consumed the icon |
| Template.SubstituteSkeleton | ll_popups.py:197-210 | substitution keeps every key, length and non-string scalar: only string leaves change |
| Template.SubstituteAt | ll_popups.py:197-210 | the node at any path of the result is the substituted node at that path of the input |
| Template.NoIconUnused | ll_popups.py:191-195 | without an icon no leaf consumes it |
| Template.BindTarget | ll_popups.py:219-221 | binding a target keeps it a mapping and does not grow it |
| Template.ApplyAreaHeuristics | ll_popups.py:214-227 | the in-place walk yields `ForceArea` |
| Template.ForceAreaForced | ll_popups.py:214-227 | afterwards every `area` entry at any depth holds the area id, whatever it held, and so does every mapping target's existing `area_id` |
| Template.ForceAreaBound | ll_popups.py:214-227 | afterwards every area slot the matcher reads holds the area id |
| Template.IconFor | ll_popups.py:237-239 | the icon is the map's entry for the room, and absent without a map or an entry |
| Template.OverrideFields | ll_popups.py:250-262 | the override keeps every key, sets an existing `name` to the room, an existing `hash` to the room's hash, an existing `icon` to a known icon, and changes nothing else |
| Template.OverrideEntries | ll_popups.py:250-262 | every entry of the overridden card is the old entry, the room under `name`, the room's hash under `hash`, or the known icon under `icon` |
| Template.OverrideCard | ll_popups.py:252-262 | the override steps, including the branch for a consumed icon, yield `OverrideBubble` |
| Template.DeepApplyTemplate | ll_popups.py:230-263 | the three passes yield `Instantiate(template, room, areaId, icons)` |
| Template.InstantiateCard | ll_popups.py:250-262 | the stack is still a pop-up stack; its pop-up card has the template card's keys, `name` = room and `hash` = `#<area_id>-popup` where present, the known icon where `icon` is present, and `area` = area id where present |
| Template.InstantiateAreaBound | ll_popups.py:246-262 | every area slot of an instantiated stack holds the area id, whatever the template held |
| Template.InstantiateQualifies | ll_popups.py:158-169 | a stack made from a template that carries what the strategy reads is found for its own room: the pop-up card's `name` under `name`, its `hash` under `hash`, and under `area` an `area` key or a mapping target with an `area_id` key, reached through keys the override and binding leave alone |
| Template.TargetOnlyTemplateCarries | ll_popups.py:112-117 | a template whose only area slot is a target's `area_id` carries what `area` reads |
| Template.InstantiateIdentifies | ll_popups.py:158-169 | a stack found for a room was made for a room of the same key: same normalised name under `name`, same area id otherwise |
| Validate.ValidateGrid | ll_popups.py:324-333 | accepts exactly a mapping of type `grid` with a `cards` list, unchanged; otherwise the message of the first check that fails (not a mapping, wrong type, no `cards` list) |
| Validate.ValidateTemplate | ll_popups.py:336-350 | accepts exactly the pop-up stacks the matcher recognises, unchanged; otherwise the message of the first check that fails (not a mapping, wrong type, no non-empty `cards` list, first card not a mapping, first card not a bubble-card pop-up) |
| Validate.ValidGridNeverMalformed | ll_popups.py:142-144 | a validated grid never makes the search fail as malformed |
| Engine.SetCardsFacts | ll_popups.py:361 | writing the card list back keeps every other key of the grid and its value |
| Engine.PlacedFacts | ll_popups.py:272-284 | a replacement keeps the length and writes at the index; an append grows the list by one at its end; every other card stays where it was |
| Engine.Grid.ReplaceOrAppend | ll_popups.py:266-284 | the grid's cards become `Placed(...)`; the position is the index or the old length; the action is `replaced` or `appended`; both insert modes append |
| Engine.DecimalRoundTrip | ll_popups.py:375 | the index in a report line is the decimal spelling of the position |
| Engine.ReportStarts | ll_popups.py:375 | a report line starts with `<room>: ` |
| Engine.ProcessReports | ll_popups.py:362-376 | a successful run has one line per room, in order; line `i` reports `rooms[i]` as replaced or appended |
| Engine.Step | ll_popups.py:364-375 | one room: a grid without a card list is malformed; with one, only an unknown strategy fails; on success the room's stack is in the card list, which grew by at most one card, and the line starts with the room |
| Engine.Process | ll_popups.py:361-376 | the rooms in order: a successful run has one line per room; a grid with a card list keeps one and fails only under an unknown strategy |
| Engine.Grid.ProcessRooms | ll_popups.py:353-376 | the loop leaves the grid and returns the reports `Process` gives: rooms in order, each seeing the cards written for earlier rooms, a failure stopping the run |
| Engine.StepSucceeds | ll_popups.py:363-375 | with a known strategy and a card list a room always succeeds and changes only `cards` |
| Engine.ProcessSucceeds | ll_popups.py:361-376 | with a known strategy and a card list a run never fails and changes only `cards` |
| Engine.UnknownStrategyFails | ll_popups.py:170-171 | an unknown strategy on a grid holding a pop-up stack stops the run at the first room, grid unchanged |
| Engine.MalformedFails | ll_popups.py:142-144 | a grid without a card list stops the run at the first room, grid unchanged |
| Engine.ValidGridProcesses | ll_popups.py:326-334 | a validated grid has a card list, and a run over it with a known strategy succeeds |
| Idempotence.MatchFirst | ll_popups.py:173-175 | the search's index is the first qualifying position |
| Idempotence.StepSettles | ll_popups.py:365-374 | after a room whose own stack is found for it, the first card found for the room is that stack |
| Idempotence.StepKeeps | ll_popups.py:365-374 | processing another room, whose stack is not found for this room and which does not find this room's stack, keeps this room settled |
| Idempotence.ProcessSettles | ll_popups.py:363-376 | a run settles each of its rooms and keeps earlier settled rooms settled |
| Idempotence.StepFixed | ll_popups.py:273-276 | a settled room's stack is replaced by an identical one: the grid does not change |
| Idempotence.ProcessFixed | ll_popups.py:363-376 | a run over settled rooms succeeds and leaves the grid unchanged |
| Idempotence.Idempotent | ll_popups.py:353-376 | if every room's stack is found for that room and for no other room of the run, a second run succeeds and leaves the grid as the first run left it |
| Idempotence.TemplateSelfFinding | ll_popups.py:158-169 | a template carrying what the strategy reads (as for `Template.InstantiateQualifies`, `area` and `target.area_id` slots alike) makes every room's stack findable for it |
| Idempotence.TemplateApart | ll_popups.py:158-169 | rooms with different keys never find each other's stacks |
| Idempotence.TemplateIdempotent | ll_popups.py:353-376 | a bubble-card template carrying what the strategy reads, rooms with distinct keys and (for `area`) non-empty area ids make the merge idempotent |
| Idempotence.SameKeyFirstRun | ll_popups.py:363-376 | two rooms with the same key, each finding its own stack: the first run ends with one position holding the second room's stack, found first for either room |
| Idempotence.SameKeySecondRun | ll_popups.py:363-376 | from such a grid, a run over the two rooms succeeds and leaves the grid unchanged |
| Idempotence.SameKeyIdempotent | ll_popups.py:353-376 | two template rooms with the same key (and, for `area`, a non-empty area id): a second run succeeds and leaves the grid as the first run left it |
| Idempotence.TwoRoomsIdempotent | tests/test_ll_popups.py:155-167 | two rooms with different normalised names under `name`, with a template whose pop-up card has `name`: the second run changes nothing |
| Idempotence.SaloonWohnzimmerIdempotent | tests/test_ll_popups.py:155-167 | the same for "Saloon" and "Wohnzimmer", for any icon map and any grid with a card list |

## Left out

- YAML loading, saving and stringifying through ruamel (`load_yaml_roundtrip`, `save_yaml_roundtrip`, `_stringify_yaml`): file I/O and a foreign library. The model works on the parsed tree.
- `compute_diff`: a wrapper over `difflib` on rendered text.
- `_load_icon_map`: reads an environment variable and parses JSON. The icon map is the optional `map<string, string>` input of `DeepApplyTemplate` and `ProcessRooms`.
- `load_rooms`, `_handle_backup`, `build_arg_parser`, `main`: file I/O, backups and command-line plumbing.
- The duplicate warning in `process_rooms`: the global logger is left out. The duplicates it names are the `duplicates` field of `StackMatch`, specified by `Matcher.MatchInSpec`.
- validate_popup_template.py is not part of this model. Its shape checks repeat `_validate_template` (`Validate.ValidateTemplate`). Its placeholder check is a substring test on raw file text.
- Unicode: `lower`, `casefold` and `isalnum` are modelled on ASCII and the Latin-1 block. Other characters are treated as having no case and as not alphanumeric. `str.strip` is modelled with Python's full whitespace set.
- YAML aliases, and trees that share subtrees: trees are values, so the deep copy of the template is implicit and the template is never changed. Aliasing between the grid and the template cannot be expressed.
- Mapping keys are strings. Non-string keys and duplicate keys are not modelled: lookups and writes act on the first entry with a key.
- Engine.Grid.ProcessRooms: a grid that is not a mapping or lacks `cards` is excluded by its precondition. The source fails with a `KeyError` or `TypeError` at its first line there. `Engine.Process` itself returns `MalformedGrid` for such grids when the room list is not empty, and `Ok([])` for an empty one.
- Template.DeepApplyTemplate: a template root that is not a mapping is passed through the first two passes and left without the override, as in the source. Its pop-up shape is guaranteed only for templates that pass `Validate.ValidateTemplate`.
- Template.InstantiateQualifies: `Carries` is a sufficient condition, not a necessary one. An `area` slot reached only through a `name`, `hash`, `icon` or `area_id` key is not counted, because the override or the target binding may overwrite the value holding it. `Idempotence.TemplateSelfFinding` and `Idempotence.TemplateIdempotent` inherit this.
- Idempotence.Idempotent: assumes two conditions the source does not check. Without the first (a room finds its own stack) a second run changes the grid: it appends a new copy, or replaces a later stack that still qualifies for the room. The second (no room finds another room's stack) is needed by the proof for an arbitrary stack maker, not by the code.
- Idempotence.TemplateIdempotent: requires distinct room keys. Rooms sharing a key are proved idempotent only for two rooms (`Idempotence.SameKeyIdempotent`); a run of many rooms where some share a key is not covered.
