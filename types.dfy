/**
 * The data model of the market map: the three enumerations, a location record,
 * the static per-category configuration and a position on the map in percent.
 */
module Types {

  /** An optional property of a record (`field?: T`), or a nullable value (`T | null`). */
  datatype Option<T> = None | Some(value: T)

  /** JavaScript truthiness of an optional string: present and not ''. */
  predicate Truthy(s: Option<string>)
  {
    s.Some? && s.value != ""
  }

  /** `s || fallback` for an optional string. */
  function OrElse(s: Option<string>, fallback: string): (r: string)
    ensures Truthy(s) ==> r == s.value
    ensures !Truthy(s) ==> r == fallback
  {
    if Truthy(s) then s.value else fallback
  }

  /** The closed set of location kinds; there is no hotel category. */
  datatype Category = FOOD | SHOPPING | SERVICE | WC | ENTRANCE

  /** Moderation state of a location. */
  datatype Status = APPROVED | PENDING

  /** The three interface languages. */
  datatype Language = VI | CS | DE

  const AllCategories: seq<Category> := [FOOD, SHOPPING, SERVICE, WC, ENTRANCE]
  const AllStatuses: seq<Status> := [APPROVED, PENDING]
  const AllLanguages: seq<Language> := [VI, CS, DE]

  /** The enum's string value (`LocationCategory.FOOD === 'FOOD'`). */
  function CategoryId(c: Category): string
  {
    match c
    case FOOD => "FOOD"
    case SHOPPING => "SHOPPING"
    case SERVICE => "SERVICE"
    case WC => "WC"
    case ENTRANCE => "ENTRANCE"
  }

  /** Each enumeration is closed and lists its values once; no category is called HOTEL. */
  lemma EnumerationsClosed()
    ensures |AllCategories| == 5 && forall c: Category :: c in AllCategories
    ensures forall i, j :: 0 <= i < j < |AllCategories| ==> AllCategories[i] != AllCategories[j]
    ensures |AllStatuses| == 2 && forall s: Status :: s in AllStatuses
    ensures |AllLanguages| == 3 && forall l: Language :: l in AllLanguages
    ensures forall c: Category :: CategoryId(c) != "HOTEL"
  {
    forall c: Category ensures c in AllCategories {
      match c
      case FOOD => assert AllCategories[0] == c;
      case SHOPPING => assert AllCategories[1] == c;
      case SERVICE => assert AllCategories[2] == c;
      case WC => assert AllCategories[3] == c;
      case ENTRANCE => assert AllCategories[4] == c;
    }
    forall s: Status ensures s in AllStatuses {
      if s == APPROVED { assert AllStatuses[0] == s; } else { assert AllStatuses[1] == s; }
    }
    forall l: Language ensures l in AllLanguages {
      match l
      case VI => assert AllLanguages[0] == l;
      case CS => assert AllLanguages[1] == l;
      case DE => assert AllLanguages[2] == l;
    }
  }

  /** Distinct categories have distinct string values. */
  lemma CategoryIdInjective(a: Category, b: Category)
    ensures CategoryId(a) == CategoryId(b) ==> a == b
  {
  }

  /**
   * A location. `x` and `y` are meant as percentages (0-100) from the left and the top
   * of the map image, but nothing restricts them to that range. The last four record
   * fields before `status` are optional.
   */
  datatype Location = Location(
    id: string,
    title: string,
    description: string,
    category: Category,
    x: real,
    y: real,
    image: Option<string>,
    rating: Option<real>,
    openHours: Option<string>,
    phoneNumber: Option<string>,
    status: Status)

  /** `Record<Language, string>`: a label for every language. */
  datatype Labels = Labels(vi: string, cs: string, de: string)
  {
    function For(lang: Language): string
    {
      match lang
      case VI => vi
      case CS => cs
      case DE => de
    }
  }

  /** Static metadata of a category (`labels` is the source's `label`, a reserved word here). */
  datatype CategoryConfig = CategoryConfig(id: Category, labels: Labels, color: string, iconName: string)

  /** A position on the map image, in percent of its width and height (the user's dot, a tapped point). */
  datatype Coords = Coords(x: real, y: real)

  type UserLocation = Coords

  /** `categories.find(c => c.id === category)`: the first configuration for the category, if any. */
  function FindConfig(configs: seq<CategoryConfig>, category: Category): (r: Option<CategoryConfig>)
    ensures r.Some? <==> exists i :: 0 <= i < |configs| && configs[i].id == category
    ensures r.Some? ==> r.value in configs && r.value.id == category
    ensures r.Some? ==> exists i :: 0 <= i < |configs| && configs[i] == r.value &&
                          forall j :: 0 <= j < i ==> configs[j].id != category
  {
    if configs == [] then None
    else if configs[0].id == category then Some(configs[0])
    else
      var rest := FindConfig(configs[1..], category);
      assert forall i :: 1 <= i < |configs| ==> configs[i] == configs[1..][i - 1];
      rest
  }

  /** The class name a category badge is painted with: `config?.color || 'bg-gray-500'`. */
  function BadgeColor(config: Option<CategoryConfig>): (r: string)
    ensures config.Some? && config.value.color != "" ==> r == config.value.color
    ensures config.None? || config.value.color == "" ==> r == "bg-gray-500"
  {
    if config.Some? && config.value.color != "" then config.value.color else "bg-gray-500"
  }
}
