/** Display configuration for the closed vocabularies and the option lists
    derived from it (src/lib/utils/constants.ts). A configuration object is an
    ordered list of (key, entry) pairs: `Object.entries` yields string keys in
    insertion order. */
module Constants {
  import opened Js
  import opened Database

  datatype StatusStyle = StatusStyle(labelText: string, color: string, bgColor: string)
  datatype CategoryStyle = CategoryStyle(labelText: string, color: string)
  datatype TypeLabel = TypeLabel(labelText: string)

  /** An entry of a `<select>`: the stored value and what is shown. */
  datatype SelectOption = SelectOption(value: string, labelText: string)

  const STATUS_CONFIG: seq<(string, StatusStyle)> := [
    ("new", StatusStyle("New", "#2563eb", "#dbeafe")),
    ("under_review", StatusStyle("Under Review", "#d97706", "#fef3c7")),
    ("approved", StatusStyle("Approved", "#16a34a", "#dcfce7")),
    ("denied", StatusStyle("Denied", "#dc2626", "#fee2e2")),
    ("fulfilled", StatusStyle("Fulfilled", "#6b7280", "#f3f4f6"))
  ]

  const CATEGORY_CONFIG: seq<(string, CategoryStyle)> := [
    ("school", CategoryStyle("School", "#3b82f6")),
    ("nonprofit", CategoryStyle("Nonprofit", "#8b5cf6")),
    ("sports_team", CategoryStyle("Sports Team", "#f97316")),
    ("community_event", CategoryStyle("Community Event", "#06b6d4")),
    ("religious", CategoryStyle("Religious", "#ec4899")),
    ("other", CategoryStyle("Other", "#6b7280"))
  ]

  const DONATION_TYPE_CONFIG: seq<(string, TypeLabel)> := [
    ("monetary", TypeLabel("Monetary")),
    ("gift_card", TypeLabel("Gift Card")),
    ("product", TypeLabel("Product/Goods")),
    ("sponsorship", TypeLabel("Sponsorship")),
    ("in_kind", TypeLabel("In-Kind")),
    ("other", TypeLabel("Other"))
  ]

  /** Every declared value, in declaration order. */
  const ALL_STATUSES: seq<Status> := [New, UnderReview, Approved, Denied, Fulfilled]
  const ALL_CATEGORIES: seq<Category> := [School, Nonprofit, SportsTeam, CommunityEvent, Religious, OtherCategory]
  const ALL_DONATION_TYPES: seq<DonationType> := [Monetary, GiftCard, Product, Sponsorship, InKind, OtherType]

  /** `Object.entries(config).map(([value, c]) => ({ value, label: c.label }))`. */
  function OptionsOf<C>(entries: seq<(string, C)>, labelOf: C -> string): (r: seq<SelectOption>)
    ensures |r| == |entries|
    ensures forall i :: 0 <= i < |r| ==> r[i] == SelectOption(entries[i].0, labelOf(entries[i].1))
  {
    if entries == [] then []
    else [SelectOption(entries[0].0, labelOf(entries[0].1))] + OptionsOf(entries[1..], labelOf)
  }

  function StatusLabel(c: StatusStyle): string { c.labelText }
  function CategoryLabel(c: CategoryStyle): string { c.labelText }
  function TypeLabelText(c: TypeLabel): string { c.labelText }

  const STATUS_OPTIONS: seq<SelectOption> := OptionsOf(STATUS_CONFIG, StatusLabel)
  const CATEGORY_OPTIONS: seq<SelectOption> := OptionsOf(CATEGORY_CONFIG, CategoryLabel)
  const DONATION_TYPE_OPTIONS: seq<SelectOption> := OptionsOf(DONATION_TYPE_CONFIG, TypeLabelText)

  /** The keys of a configuration object, in order. */
  function Keys<C>(entries: seq<(string, C)>): (r: seq<string>)
    ensures |r| == |entries|
    ensures forall i :: 0 <= i < |r| ==> r[i] == entries[i].0
  {
    if entries == [] then [] else [entries[0].0] + Keys(entries[1..])
  }

  /** The status table is keyed by exactly the five statuses, in declaration
      order, and a string is one of its keys iff it names a declared status. */
  lemma StatusConfigCoversStatuses()
    ensures Keys(STATUS_CONFIG) == seq(|ALL_STATUSES|, i requires 0 <= i < |ALL_STATUSES| => StatusName(ALL_STATUSES[i]))
    ensures forall s: Status :: s in ALL_STATUSES
    ensures forall k :: k in Keys(STATUS_CONFIG) <==> ParseStatus(k).Some?
  {
    forall s: Status ensures s in ALL_STATUSES {
      match s
      case New => assert ALL_STATUSES[0] == s;
      case UnderReview => assert ALL_STATUSES[1] == s;
      case Approved => assert ALL_STATUSES[2] == s;
      case Denied => assert ALL_STATUSES[3] == s;
      case Fulfilled => assert ALL_STATUSES[4] == s;
    }
    var ks := Keys(STATUS_CONFIG);
    assert ks == ["new", "under_review", "approved", "denied", "fulfilled"];
  }

  /** The category table is keyed by exactly the six categories, in order. */
  lemma CategoryConfigCoversCategories()
    ensures Keys(CATEGORY_CONFIG) == seq(|ALL_CATEGORIES|, i requires 0 <= i < |ALL_CATEGORIES| => CategoryName(ALL_CATEGORIES[i]))
    ensures forall c: Category :: c in ALL_CATEGORIES
    ensures forall k :: k in Keys(CATEGORY_CONFIG) <==> ParseCategory(k).Some?
  {
    forall c: Category ensures c in ALL_CATEGORIES {
      match c
      case School => assert ALL_CATEGORIES[0] == c;
      case Nonprofit => assert ALL_CATEGORIES[1] == c;
      case SportsTeam => assert ALL_CATEGORIES[2] == c;
      case CommunityEvent => assert ALL_CATEGORIES[3] == c;
      case Religious => assert ALL_CATEGORIES[4] == c;
      case OtherCategory => assert ALL_CATEGORIES[5] == c;
    }
    var ks := Keys(CATEGORY_CONFIG);
    assert ks == ["school", "nonprofit", "sports_team", "community_event", "religious", "other"];
  }

  /** The donation-type table is keyed by exactly the six donation types, in order. */
  lemma DonationTypeConfigCoversTypes()
    ensures Keys(DONATION_TYPE_CONFIG) == seq(|ALL_DONATION_TYPES|, i requires 0 <= i < |ALL_DONATION_TYPES| => DonationTypeName(ALL_DONATION_TYPES[i]))
    ensures forall t: DonationType :: t in ALL_DONATION_TYPES
    ensures forall k :: k in Keys(DONATION_TYPE_CONFIG) <==> ParseDonationType(k).Some?
  {
    forall t: DonationType ensures t in ALL_DONATION_TYPES {
      match t
      case Monetary => assert ALL_DONATION_TYPES[0] == t;
      case GiftCard => assert ALL_DONATION_TYPES[1] == t;
      case Product => assert ALL_DONATION_TYPES[2] == t;
      case Sponsorship => assert ALL_DONATION_TYPES[3] == t;
      case InKind => assert ALL_DONATION_TYPES[4] == t;
      case OtherType => assert ALL_DONATION_TYPES[5] == t;
    }
    var ks := Keys(DONATION_TYPE_CONFIG);
    assert ks == ["monetary", "gift_card", "product", "sponsorship", "in_kind", "other"];
  }

  /** An option list has one entry per key of its table, in the same order,
      whose value is the key and whose label is that entry's label. */
  lemma OptionsFollowKeys<C>(entries: seq<(string, C)>, labelOf: C -> string)
    ensures |OptionsOf(entries, labelOf)| == |Keys(entries)|
    ensures forall i :: 0 <= i < |entries| ==>
      OptionsOf(entries, labelOf)[i] == SelectOption(Keys(entries)[i], labelOf(entries[i].1))
  {
  }

  /** The three option lists follow their tables. */
  lemma OptionListsFollowConfig()
    ensures |STATUS_OPTIONS| == |STATUS_CONFIG|
    ensures forall i :: 0 <= i < |STATUS_OPTIONS| ==>
      STATUS_OPTIONS[i].value == Keys(STATUS_CONFIG)[i] && STATUS_OPTIONS[i].labelText == STATUS_CONFIG[i].1.labelText
    ensures |CATEGORY_OPTIONS| == |CATEGORY_CONFIG|
    ensures forall i :: 0 <= i < |CATEGORY_OPTIONS| ==>
      CATEGORY_OPTIONS[i].value == Keys(CATEGORY_CONFIG)[i] && CATEGORY_OPTIONS[i].labelText == CATEGORY_CONFIG[i].1.labelText
    ensures |DONATION_TYPE_OPTIONS| == |DONATION_TYPE_CONFIG|
    ensures forall i :: 0 <= i < |DONATION_TYPE_OPTIONS| ==>
      DONATION_TYPE_OPTIONS[i].value == Keys(DONATION_TYPE_CONFIG)[i] && DONATION_TYPE_OPTIONS[i].labelText == DONATION_TYPE_CONFIG[i].1.labelText
  {
    OptionsFollowKeys(STATUS_CONFIG, StatusLabel);
    OptionsFollowKeys(CATEGORY_CONFIG, CategoryLabel);
    OptionsFollowKeys(DONATION_TYPE_CONFIG, TypeLabelText);
  }
}
