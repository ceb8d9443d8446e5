/**
 * The list view, as the content of each card it renders: the category badge's label
 * and colour, the image source, which badges appear and which actions are offered.
 */
module ListView {
  import opened Types

  const PlaceholderImage: string := "https://via.placeholder.com/400x300?text=No+Image"

  /** The configured label for the current language when there is a config and that label is non-empty, else the raw category id. */
  function CategoryLabel(configs: seq<CategoryConfig>, category: Category, lang: Language): (r: string)
    ensures var c := FindConfig(configs, category);
      c.Some? && c.value.labels.For(lang) != "" ==> r == c.value.labels.For(lang)
    ensures var c := FindConfig(configs, category);
      !(c.Some? && c.value.labels.For(lang) != "") ==> r == CategoryId(category)
    ensures r != ""
  {
    var c := FindConfig(configs, category);
    if c.Some? && c.value.labels.For(lang) != "" then c.value.labels.For(lang) else CategoryId(category)
  }

  /** `location.image || placeholder`. */
  function ImageSrc(loc: Location): (r: string)
    ensures Truthy(loc.image) ==> r == loc.image.value
    ensures !Truthy(loc.image) ==> r == PlaceholderImage
    ensures r != ""
  {
    OrElse(loc.image, PlaceholderImage)
  }

  /**
   * What `{location.rating && <badge/>}` puts on the card: the badge for a non-zero
   * rating, nothing for a missing one, and, because a falsy number is itself rendered,
   * a bare "0" for a zero rating.
   */
  datatype RatingView = RatingBadge(value: real) | BareZero | NoRating

  function RatingShown(rating: Option<real>): (r: RatingView)
    ensures r.RatingBadge? <==> rating.Some? && rating.value != 0.0
    ensures r.RatingBadge? ==> r.value == rating.value
    ensures r.BareZero? <==> rating == Some(0.0)
  {
    if rating.None? then NoRating else if rating.value == 0.0 then BareZero else RatingBadge(rating.value)
  }

  /** Which optional handlers the list was given. */
  datatype Handlers = Handlers(onApprove: bool, onEdit: bool, onDelete: bool)

  /** The buttons under a card. */
  datatype Actions = Actions(view: bool, approve: bool, edit: bool, delete: bool)

  function CardActions(loc: Location, isAdmin: bool, handlers: Handlers): (a: Actions)
    ensures a.view
    ensures a.approve <==> isAdmin && loc.status == PENDING && handlers.onApprove
    ensures a.edit <==> isAdmin && handlers.onEdit
    ensures a.delete <==> isAdmin && handlers.onDelete
  {
    Actions(true, isAdmin && loc.status == PENDING && handlers.onApprove,
            isAdmin && handlers.onEdit, isAdmin && handlers.onDelete)
  }

  /** One location's card. */
  datatype Card = Card(
    id: string,
    title: string,
    categoryLabel: string,
    imageSrc: string,
    badgeColor: string,
    pendingBadge: bool,
    rating: RatingView,
    showsPhone: bool,
    showsOpenHours: bool,
    actions: Actions)

  function CardFor(loc: Location, configs: seq<CategoryConfig>, lang: Language, isAdmin: bool, handlers: Handlers): (c: Card)
    ensures c.id == loc.id && c.title == loc.title
    ensures c.categoryLabel == CategoryLabel(configs, loc.category, lang)
    ensures c.imageSrc == ImageSrc(loc)
    ensures c.badgeColor == BadgeColor(FindConfig(configs, loc.category))
    ensures c.pendingBadge <==> isAdmin && loc.status == PENDING
    ensures c.rating == RatingShown(loc.rating)
    ensures c.showsPhone == Truthy(loc.phoneNumber) && c.showsOpenHours == Truthy(loc.openHours)
    ensures c.actions == CardActions(loc, isAdmin, handlers)
  {
    Card(loc.id, loc.title, CategoryLabel(configs, loc.category, lang), ImageSrc(loc),
         BadgeColor(FindConfig(configs, loc.category)), isAdmin && loc.status == PENDING,
         RatingShown(loc.rating), Truthy(loc.phoneNumber), Truthy(loc.openHours),
         CardActions(loc, isAdmin, handlers))
  }

  /** What the list shows: the empty message, or one card per location in order. */
  datatype ListRender = EmptyMessage | Cards(cards: seq<Card>)

  function Render(locations: seq<Location>, configs: seq<CategoryConfig>, lang: Language,
                  isAdmin: bool, handlers: Handlers): (r: ListRender)
    ensures r.EmptyMessage? <==> |locations| == 0
    ensures r.Cards? ==> (
      |r.cards| == |locations| &&
      forall i :: 0 <= i < |locations| ==> r.cards[i] == CardFor(locations[i], configs, lang, isAdmin, handlers))
  {
    if |locations| == 0 then EmptyMessage
    else Cards(seq(|locations|, i requires 0 <= i < |locations| => CardFor(locations[i], configs, lang, isAdmin, handlers)))
  }

  /** A guest sees no PENDING badge and no approve, edit or delete button on any card. */
  lemma GuestCardsHaveNoAdminControls(locations: seq<Location>, configs: seq<CategoryConfig>, lang: Language, handlers: Handlers)
    ensures var r := Render(locations, configs, lang, false, handlers);
      r.Cards? ==> forall i :: 0 <= i < |r.cards| ==>
        !r.cards[i].pendingBadge && !r.cards[i].actions.approve && !r.cards[i].actions.edit && !r.cards[i].actions.delete
  {
  }

  /** An approved record never offers Approve, whoever looks at it. */
  lemma ApprovedCardHasNoApprove(loc: Location, configs: seq<CategoryConfig>, lang: Language, isAdmin: bool, handlers: Handlers)
    requires loc.status == APPROVED
    ensures !CardFor(loc, configs, lang, isAdmin, handlers).actions.approve
    ensures !CardFor(loc, configs, lang, isAdmin, handlers).pendingBadge
  {
  }
}
