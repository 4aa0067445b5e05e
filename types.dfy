/** The records shared by every screen: categories, first-responder facilities, filter state. */
module Types {
  import opened Wrappers

  /** The five kinds of facility. */
  datatype Category = Police | Fire | Ambulance | Hospital | Emergency

  /** The display name of a category, which is also the string a filter selects it by. */
  function CategoryName(c: Category): string {
    match c
    case Police => "Police"
    case Fire => "Fire"
    case Ambulance => "Ambulance"
    case Hospital => "Hospital"
    case Emergency => "Emergency"
  }

  /** The categories in the order the screens list them. */
  const AllCategories: seq<Category> := [Police, Fire, Ambulance, Hospital, Emergency]

  lemma AllCategoriesComplete(c: Category)
    ensures c in AllCategories
  {
  }

  lemma CategoryNameInjective(a: Category, b: Category)
    requires CategoryName(a) == CategoryName(b)
    ensures a == b
  {
  }

  /** A map position; coordinates are integers in this model. */
  datatype LatLng = LatLng(lat: int, lng: int)

  /** A facility as the screens hold it. */
  datatype FirstResponder = FirstResponder(
    id: string,
    title: string,
    category: Category,
    city: string,
    state: string,
    address: string,
    locationLat: int,
    locationLng: int,
    phoneNumber: string,
    websiteUrl: Option<string>,
    googleLocationUrl: string)

  /**
   * The list filters. `category` holds whatever string the category control wrote:
   * "All" or a category name. `categories` is an optional field no shown code sets.
   */
  datatype FilterState = FilterState(
    title: string,
    category: string,
    categories: Option<seq<Category>>,
    city: string,
    state: string)
}
