/**
 * The record types of the vehicle catalogue: a car as the store keeps it and
 * the shape of one page of a listing.
 */
module CarTypes {
  import opened Wrappers

  /** The four engine kinds; Label() is the string the store and the UI use. */
  datatype EngineType = Gasoline | Gas | Diesel | Electric {
    function Label(): string {
      match this
      case Gasoline => "Бензиновый"
      case Gas => "Газовый"
      case Diesel => "Дизельный"
      case Electric => "Электрический"
    }
  }

  /** The two transmission kinds. */
  datatype TransmissionType = Manual | Automatic {
    function Label(): string {
      match this
      case Manual => "Механическая"
      case Automatic => "Автоматическая"
    }
  }

  /** The three drive kinds. */
  datatype DriveType = AllWheel | RearWheel | FrontWheel {
    function Label(): string {
      match this
      case AllWheel => "Полный привод"
      case RearWheel => "Задний привод"
      case FrontWheel => "Передний привод"
    }
  }

  /**
   * One catalogue entry. Numbers are JavaScript numbers, modelled as reals;
   * `createdAt` is a millisecond timestamp and the listing's sort key.
   * Every optional field is `None` for the source's `null`.
   */
  datatype Car = Car(
    id: string,
    make: string,
    model: string,
    year: real,
    color: string,
    engineCapacity: Option<real>,
    engineType: Option<EngineType>,
    enginePower: Option<real>,
    transmissionType: Option<TransmissionType>,
    driveType: Option<DriveType>,
    price: Option<real>,
    fuelConsumption: Option<real>,
    isAvailable: bool,
    description: Option<string>,
    createdAt: int)

  /**
   * One page of a listing: the page's records plus the store's totals.
   * `items` counts all records, `pages` all pages; `next` and `prev` are
   * absent on the last and first page.
   */
  datatype APIResponse<T> = APIResponse(
    data: seq<T>,
    first: int,
    items: int,
    last: int,
    next: Option<int>,
    pages: int,
    prev: Option<int>)
}
