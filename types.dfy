/** The records the promotions store keeps: users, authenticated sessions and
    promotions. Calendar dates are whole day numbers counted from 1970-01-01. */
module Types {

  /** A value that may be missing: an absent storage key, an omitted field. */
  datatype Option<T> = None | Some(value: T) {
    /** The held value, or `default` when there is none (JavaScript's `x || default`
        on an optional field). */
    function GetOr(default: T): T {
      if Some? then value else default
    }
  }

  /** A calendar day: the number of days since 1970-01-01. */
  type Day = int

  /** A registered user; the password is kept as plain text. */
  datatype User = User(email: string, password: string)

  /** The session record written at login. */
  datatype AuthUser = AuthUser(email: string, isAuthenticated: bool)

  /** A stored promotion. `isActive` and `selectedProducts` are optional because
      some records written by the application leave them out. */
  datatype Promotion = Promotion(
    id: string,
    name: string,
    description: string,
    category: string,
    discount: int,
    startDate: Day,
    endDate: Day,
    image: string,
    isActive: Option<bool>,
    selectedProducts: Option<seq<string>>)

  /** A promotion without its id: what a form hands to the store, and also the
      shape of a partial update. */
  datatype Draft = Draft(
    name: string,
    description: string,
    category: string,
    discount: int,
    startDate: Day,
    endDate: Day,
    image: string,
    isActive: Option<bool>,
    selectedProducts: Option<seq<string>>)

  /** `{...draft, id}`: the draft's fields with an id added. */
  function Stamp(d: Draft, id: string): (p: Promotion)
    ensures p.id == id
    ensures Unstamp(p) == d
  {
    Promotion(id, d.name, d.description, d.category, d.discount, d.startDate,
              d.endDate, d.image, d.isActive, d.selectedProducts)
  }

  /** Every field of a promotion except its id. */
  function Unstamp(p: Promotion): Draft {
    Draft(p.name, p.description, p.category, p.discount, p.startDate, p.endDate,
          p.image, p.isActive, p.selectedProducts)
  }

  /** A promotion is its id together with the rest of its fields. */
  lemma StampUnstamp(p: Promotion)
    ensures Stamp(Unstamp(p), p.id) == p
  {
  }
}
