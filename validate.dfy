/**
 * The shape checks applied to the two loaded documents before any room is
 * processed (`_validate_grid`, `_validate_template`).  Each returns the
 * document unchanged or the message of the first check it fails.
 */
module Validate {
  import opened Tree
  import opened Matcher

  /** `_validate_grid`: a mapping of type `grid` holding a `cards` list. */
  function ValidateGrid(data: Node): (r: Result<Node, string>)
    ensures r.Ok? <==> data.Mapping? && Field(data, "type") == Some(Str("grid")) && GridCards(data).Some?
    ensures r.Ok? ==> r.value == data
    ensures !data.Mapping? ==> r == Err("Grid YAML must be a mapping at the root")
    ensures data.Mapping? && Field(data, "type") != Some(Str("grid")) ==> r == Err("Grid root must have type: grid")
    ensures data.Mapping? && Field(data, "type") == Some(Str("grid")) && GridCards(data).None? ==>
              r == Err("Grid must contain a 'cards' list")
  {
    if !data.Mapping? then Err("Grid YAML must be a mapping at the root")
    else if Get(data.entries, "type") != Some(Str("grid")) then Err("Grid root must have type: grid")
    else match Get(data.entries, "cards")
      case Some(Sequence(_)) => Ok(data)
      case _ => Err("Grid must contain a 'cards' list")
  }

  /** The first entry of a node's `cards` list, when it has a non-empty one. */
  function FirstCard(data: Node): Option<Node>
  {
    match GridCards(data)
    case Some(cs) => if cs == [] then None else Some(cs[0])
    case None => None
  }

  /**
   * `_validate_template`: a `vertical-stack` mapping whose non-empty `cards`
   * list starts with a mapping that is a bubble-card pop-up.  It accepts
   * exactly the stacks the matcher treats as pop-up stacks.
   */
  function ValidateTemplate(data: Node): (r: Result<Node, string>)
    ensures r.Ok? <==> IsBubblePopup(data)
    ensures r.Ok? ==> r.value == data
    ensures !data.Mapping? ==> r == Err("Template YAML must be a mapping at the root")
    ensures data.Mapping? && Field(data, "type") != Some(Str("vertical-stack")) ==>
              r == Err("Template root must have type: vertical-stack")
    ensures data.Mapping? && Field(data, "type") == Some(Str("vertical-stack")) ==>
      && (FirstCard(data).None? ==> r == Err("Template must contain a non-empty 'cards' list"))
      && (FirstCard(data).Some? && !FirstCard(data).value.Mapping? ==> r == Err("Template first card must be a mapping"))
      && (FirstCard(data).Some? && FirstCard(data).value.Mapping? && !IsBubblePopup(data) ==>
            r == Err("Template must start with a custom:bubble-card pop-up"))
  {
    if !data.Mapping? then Err("Template YAML must be a mapping at the root")
    else if Get(data.entries, "type") != Some(Str("vertical-stack")) then Err("Template root must have type: vertical-stack")
    else match FirstCard(data)
      case None => Err("Template must contain a non-empty 'cards' list")
      case Some(first) =>
        if !first.Mapping? then Err("Template first card must be a mapping")
        else if Get(first.entries, "type") != Some(Str("custom:bubble-card"))
             || Get(first.entries, "card_type") != Some(Str("pop-up"))
        then Err("Template must start with a custom:bubble-card pop-up")
        else Ok(data)
  }

  /** A grid that passes its check can never make the matcher report a malformed grid. */
  lemma ValidGridNeverMalformed(data: Node, room: string, areaId: string, strategy: string)
    requires ValidateGrid(data).Ok?
    ensures FindStack(data, room, areaId, strategy) != Err(MalformedGrid)
  {
  }
}
