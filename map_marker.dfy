/**
 * A marker on the map: its icon, badge colour and label fallbacks, the hover flag,
 * and when its popover shows.
 */
module MapMarker {
  import opened Types

  /**
   * `getIconName`: Utensils, ShoppingBag, Bath and Info for FOOD, SHOPPING, WC and
   * SERVICE; MapPin for everything else. The source also tests for a HOTEL category
   * (icon Bed), which the enumeration does not have, so that test never succeeds.
   */
  function IconName(c: Category): (r: string)
    ensures c == FOOD ==> r == "Utensils"
    ensures c == SHOPPING ==> r == "ShoppingBag"
    ensures c == WC ==> r == "Bath"
    ensures c == SERVICE ==> r == "Info"
    ensures c == ENTRANCE ==> r == "MapPin"
  {
    if c == FOOD then "Utensils"
    else if c == SHOPPING then "ShoppingBag"
    else if c == WC then "Bath"
    else if c == SERVICE then "Info"
    else "MapPin"
  }

  /** No category is drawn with the hotel icon, and only ENTRANCE falls through to the pin. */
  lemma NoHotelIcon()
    ensures forall c: Category :: IconName(c) != "Bed"
    ensures forall c: Category :: IconName(c) == "MapPin" <==> c == ENTRANCE
  {
  }

  /** `categoryConfig ? categoryConfig.label[language] : location.category` (an empty label is shown as is). */
  function MarkerLabel(config: Option<CategoryConfig>, category: Category, lang: Language): (r: string)
    ensures config.Some? ==> r == config.value.labels.For(lang)
    ensures config.None? ==> r == CategoryId(category)
  {
    if config.Some? then config.value.labels.For(lang) else CategoryId(category)
  }

  /** The popover is visible exactly when the marker is hovered or active. */
  predicate PopoverVisible(isHovered: bool, active: bool)
  {
    isHovered || active
  }

  /** The stacking class: raised exactly when the popover is visible. */
  function ZIndexClass(isHovered: bool, active: bool): (r: string)
    ensures r == "z-50" <==> PopoverVisible(isHovered, active)
    ensures !PopoverVisible(isHovered, active) ==> r == "z-20"
  {
    if active || isHovered then "z-50" else "z-20"
  }

  /** The marker's own state. */
  class Marker {
    const location: Location
    var isHovered: bool

    constructor (location: Location)
      ensures this.location == location && !isHovered
    {
      this.location := location;
      isHovered := false;
    }

    method MouseEnter()
      modifies this`isHovered
      ensures isHovered
    {
      isHovered := true;
    }

    method MouseLeave()
      modifies this`isHovered
      ensures !isHovered
    {
      isHovered := false;
    }

    /**
     * A click hands the marker's own location to `onClick`. The event also stops there;
     * that it never reaches the map's surface handler is `InteractiveMap.DispatchClick`.
     */
    method Click() returns (handed: Location)
      ensures handed == location
    {
      handed := location;
    }
  }
}
