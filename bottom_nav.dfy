/**
 * The bottom category bar: an "All" button and one toggle per configured category,
 * which of them is highlighted, and the fixed colour of the highlighted category.
 */
module BottomNav {
  import opened Types

  /** A category button's click: deselect when it is the active one, otherwise select it. */
  function Toggle(active: Option<Category>, clicked: Category): (r: Option<Category>)
    ensures active == Some(clicked) ==> r.None?
    ensures active != Some(clicked) ==> r == Some(clicked)
  {
    if active == Some(clicked) then None else Some(clicked)
  }

  /** The "All" button always clears the selection. */
  function SelectAll(): (r: Option<Category>)
    ensures r.None?
  {
    None
  }

  predicate IsHighlighted(active: Option<Category>, c: Category)
  {
    active == Some(c)
  }

  predicate AllHighlighted(active: Option<Category>)
  {
    active.None?
  }

  /** Some button of the bar is for category `c`. */
  predicate Listed(configs: seq<CategoryConfig>, c: Category)
  {
    exists i :: 0 <= i < |configs| && configs[i].id == c
  }

  /** The bar lists every category, each on one button only. */
  predicate EachCategoryOnce(configs: seq<CategoryConfig>)
  {
    (forall c: Category :: Listed(configs, c)) &&
    forall i, j :: 0 <= i < |configs| && 0 <= j < |configs| && configs[i].id == configs[j].id ==> i == j
  }

  /** The `i`th category button of the bar is highlighted. */
  predicate ButtonHighlighted(configs: seq<CategoryConfig>, active: Option<Category>, i: int)
    requires 0 <= i < |configs|
  {
    IsHighlighted(active, configs[i].id)
  }

  /**
   * With each category on exactly one button, exactly one button of the bar is
   * highlighted: "All" and no category button when nothing is selected, otherwise
   * the one button of the selected category and not "All".
   */
  lemma ExactlyOneHighlighted(configs: seq<CategoryConfig>, active: Option<Category>)
    requires EachCategoryOnce(configs)
    ensures AllHighlighted(active) ==> forall i :: 0 <= i < |configs| ==> !ButtonHighlighted(configs, active, i)
    ensures !AllHighlighted(active) ==> exists i :: 0 <= i < |configs| && ButtonHighlighted(configs, active, i)
    ensures forall i, j :: (0 <= i < |configs| && 0 <= j < |configs| &&
                            ButtonHighlighted(configs, active, i) && ButtonHighlighted(configs, active, j)) ==> i == j
  {
    if active.Some? {
      assert Listed(configs, active.value);
      var i :| 0 <= i < |configs| && configs[i].id == active.value;
      assert ButtonHighlighted(configs, active, i);
    }
  }

  /** A category listed twice lights two buttons at once when it is selected. */
  lemma DuplicateLightsTwoButtons(configs: seq<CategoryConfig>, i: int, j: int)
    requires 0 <= i < |configs| && 0 <= j < |configs| && i != j && configs[i].id == configs[j].id
    ensures ButtonHighlighted(configs, Some(configs[i].id), i) && ButtonHighlighted(configs, Some(configs[i].id), j)
    ensures !AllHighlighted(Some(configs[i].id))
  {
  }

  /** A category missing from the bar leaves no button highlighted when it is selected, not even "All". */
  lemma UnlistedLightsNothing(configs: seq<CategoryConfig>, c: Category)
    requires !Listed(configs, c)
    ensures forall i :: 0 <= i < |configs| ==> !ButtonHighlighted(configs, Some(c), i)
    ensures !AllHighlighted(Some(c))
  {
  }

  /** Clicking the same category twice comes back to the starting selection when that was "All" or that category. */
  lemma ToggleTwice(active: Option<Category>, c: Category)
    requires active.None? || active == Some(c)
    ensures Toggle(Toggle(active, c), c) == active
  {
  }

  /** After a category click, that category is highlighted or (when it was already) nothing is. */
  lemma ToggleHighlights(active: Option<Category>, c: Category)
    ensures IsHighlighted(Toggle(active, c), c) <==> !IsHighlighted(active, c)
    ensures AllHighlighted(Toggle(active, c)) <==> IsHighlighted(active, c)
  {
  }

  /** `getColorHex`: the four brand colours, and #888 for any other category. */
  function ColorHex(c: Category): (r: string)
    ensures c == FOOD ==> r == "#ED1C24"
    ensures c == SHOPPING ==> r == "#FFD200"
    ensures c == SERVICE ==> r == "#00AEEF"
    ensures c == WC ==> r == "#9E005D"
    ensures c == ENTRANCE ==> r == "#888"
  {
    match c
    case FOOD => "#ED1C24"
    case SHOPPING => "#FFD200"
    case SERVICE => "#00AEEF"
    case WC => "#9E005D"
    case _ => "#888"
  }

  /** The four brand colours are distinct, so each coloured category gets a colour of its own. */
  lemma BrandColoursDistinct(a: Category, b: Category)
    requires a != ENTRANCE && b != ENTRANCE && a != b
    ensures ColorHex(a) != ColorHex(b)
  {
  }
}
