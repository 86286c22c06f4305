/** The records the components pass around (types.ts), completed with the
    fields the components read but the declaration leaves out: `gender`,
    `description` and `whatsapp` on a creator, and the `admin` view. */
module Types {
  import opened Common

  /** A creator listing as the application holds it. Fields the data store
      may leave null are optional; `rating` is a JavaScript number. */
  datatype Creator = Creator(
    id: string,
    name: string,
    username: string,
    bio: Option<string>,
    avatar: string,
    rating: real,
    ratingCount: Option<int>,
    online: bool,
    baseRate: Option<int>,
    age: Option<int>,
    phone: Option<string>,
    location_area: Option<string>,
    location_city: Option<string>,
    photos: Option<seq<string>>,
    aboutTags: Option<seq<string>>,
    servicesTags: Option<seq<string>>,
    gender: Option<string>,
    description: Option<string>,
    whatsapp: Option<string>)

  /** The screens of the application. */
  datatype View = Home | MarketplaceView | Dashboard | ProfileView | RegistrationView | AdminView

  /** Which screen is shown and, for the profile screen, whose profile. */
  datatype NavState = NavState(view: View, selectedCreatorId: Option<string>)
}
