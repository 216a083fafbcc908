/** The listing record and its enumerations. */
module Types {
  import opened Wrappers

  /** Category of a listing. */
  datatype PropertyType = Apartment | Villa | Commercial

  /** Lifecycle status of a listing. */
  datatype PropertyStatus = Available | Sold | Rented

  /** One listing. The field that the source calls `type` is `kind` here,
      because `type` is a Dafny keyword. Numbers are JavaScript numbers,
      modelled as reals. `images` may be absent. */
  datatype Property = Property(
    id: string,
    title: string,
    kind: PropertyType,
    location: string,
    price: real,
    status: PropertyStatus,
    bedrooms: real,
    bathrooms: real,
    area: real,
    description: string,
    features: string,
    availableFrom: string,
    isRental: bool,
    images: Option<seq<string>>)

  /** What the form edits: a listing whose `id` may be absent. */
  datatype FormData = FormData(
    id: Option<string>,
    title: string,
    kind: PropertyType,
    location: string,
    price: real,
    status: PropertyStatus,
    bedrooms: real,
    bathrooms: real,
    area: real,
    description: string,
    features: string,
    availableFrom: string,
    isRental: bool,
    images: Option<seq<string>>)

  /** No two listings of `items` share an id. */
  predicate UniqueIds(items: seq<Property>) {
    forall i, j :: 0 <= i < j < |items| ==> items[i].id != items[j].id
  }

  /** Some listing of `items` has id `id`. */
  predicate HasId(items: seq<Property>, id: string) {
    exists i :: 0 <= i < |items| && items[i].id == id
  }
}
