/**
 * The shared record types, storage-path helpers and default values of
 * src/types/database.ts.
 */
module Database {
  import opened Wrappers
  import opened Strings

  /** The lifecycle of an exhibition; the database stores its name as text. */
  datatype ExhibitionStatus = Upcoming | Ongoing | Ended

  function StatusName(s: ExhibitionStatus): string {
    match s
    case Upcoming => "upcoming"
    case Ongoing => "ongoing"
    case Ended => "ended"
  }

  /** Reads a stored status name; any other text is not a status. */
  function ParseStatus(t: string): (r: Option<ExhibitionStatus>)
    ensures r.Some? <==> t in {"upcoming", "ongoing", "ended"}
    ensures r.Some? ==> StatusName(r.value) == t
  {
    if t == "upcoming" then Some(Upcoming)
    else if t == "ongoing" then Some(Ongoing)
    else if t == "ended" then Some(Ended)
    else None
  }

  /** The three status names are distinct and each reads back as its status. */
  lemma StatusNameRoundTrip(s: ExhibitionStatus)
    ensures ParseStatus(StatusName(s)) == Some(s)
  {
  }

  /** The role stored on a user's profile. */
  datatype UserRole = User | Editor | Admin

  function RoleName(r: UserRole): string {
    match r
    case User => "user"
    case Editor => "editor"
    case Admin => "admin"
  }

  /** Reads a stored role name; any other text is not a role. */
  function ParseRole(t: string): (r: Option<UserRole>)
    ensures r.Some? <==> t in {"user", "editor", "admin"}
    ensures r.Some? ==> RoleName(r.value) == t
  {
    if t == "user" then Some(User)
    else if t == "editor" then Some(Editor)
    else if t == "admin" then Some(Admin)
    else None
  }

  lemma RoleNameRoundTrip(r: UserRole)
    ensures ParseRole(RoleName(r)) == Some(r)
  {
  }

  /** Opening hours of one day: times as "HH:MM" text, and whether the place is closed. */
  datatype DaySchedule = DaySchedule(open: string, close: string, closed: bool)

  datatype Weekday = Monday | Tuesday | Wednesday | Thursday | Friday | Saturday | Sunday

  /** One schedule per day of the week. */
  datatype OperatingHours = OperatingHours(
    monday: DaySchedule, tuesday: DaySchedule, wednesday: DaySchedule, thursday: DaySchedule,
    friday: DaySchedule, saturday: DaySchedule, sunday: DaySchedule)
  {
    function Get(d: Weekday): DaySchedule {
      match d
      case Monday => monday
      case Tuesday => tuesday
      case Wednesday => wednesday
      case Thursday => thursday
      case Friday => friday
      case Saturday => saturday
      case Sunday => sunday
    }

    /** `{ ...hours, [d]: s }`: day `d` gets `s`, every other day keeps its schedule. */
    function With(d: Weekday, s: DaySchedule): (r: OperatingHours)
      ensures r.Get(d) == s
      ensures forall e :: e != d ==> r.Get(e) == Get(e)
    {
      match d
      case Monday => this.(monday := s)
      case Tuesday => this.(tuesday := s)
      case Wednesday => this.(wednesday := s)
      case Thursday => this.(thursday := s)
      case Friday => this.(friday := s)
      case Saturday => this.(saturday := s)
      case Sunday => this.(sunday := s)
    }
  }

  /** A row of `place_categories`. */
  datatype Category = Category(id: string, name: string, slug: string, description: Option<string>)

  /** The seven optional links of a place. */
  datatype LinkKind = NaverMap | KakaoMap | GoogleMap | Website | Blog | Instagram | Youtube

  /** A link kind that is absent from the map is an unset (`undefined`) link. */
  type PlaceLinks = map<LinkKind, string>

  /** `place/<placeId>/<fileName>`: where a place's image lives in storage. */
  function PlaceImagePath(placeId: string, fileName: string): string {
    "place/" + placeId + "/" + fileName
  }

  /** The thumbnail path is the image path of the file "thumbnail.jpg". */
  function PlaceThumbnailPath(placeId: string): (r: string)
    ensures r == PlaceImagePath(placeId, "thumbnail.jpg")
  {
    "place/" + placeId + "/thumbnail.jpg"
  }

  /** Reads a place id and file name back out of a storage path. */
  function SplitPlaceImagePath(path: string): Option<(string, string)> {
    if StartsWith(path, "place/") then
      var rest := path[6..];
      var id := BeforeFirst(rest, '/');
      if |id| < |rest| then Some((id, rest[|id| + 1..])) else None
    else None
  }

  /**
   * A place id without '/' and the file name can be read back from the path,
   * so two such places never share an image path.
   */
  lemma PlaceImagePathRoundTrip(placeId: string, fileName: string)
    requires '/' !in placeId
    ensures SplitPlaceImagePath(PlaceImagePath(placeId, fileName)) == Some((placeId, fileName))
  {
    var path := PlaceImagePath(placeId, fileName);
    assert path[..6] == "place/";
    assert path[6..] == placeId + ['/'] + fileName;
    BeforeFirstOfJoin(placeId, '/', fileName);
    assert path[6..][|placeId| + 1..] == fileName;
  }

  /** Every day opens at 10:00 and closes at 18:00; only Sunday is closed. */
  function DefaultOperatingHours(): (h: OperatingHours)
    ensures forall d :: h.Get(d).open == "10:00" && h.Get(d).close == "18:00"
    ensures forall d :: h.Get(d).closed <==> d == Sunday
  {
    var weekday := DaySchedule("10:00", "18:00", false);
    OperatingHours(weekday, weekday, weekday, weekday, weekday, weekday,
                   DaySchedule("10:00", "18:00", true))
  }

  lemma LinkKindCases(k: LinkKind)
    ensures k in {NaverMap, KakaoMap, GoogleMap, Website, Blog, Instagram, Youtube}
  {
  }

  /** All seven links are present and empty. */
  function DefaultPlaceLinks(): (links: PlaceLinks)
    ensures forall k :: k in links
    ensures forall k :: k in links ==> links[k] == ""
  {
    var links := map[NaverMap := "", KakaoMap := "", GoogleMap := "", Website := "",
                     Blog := "", Instagram := "", Youtube := ""];
    assert forall k :: k in links by {
      forall k: LinkKind ensures k in links { LinkKindCases(k); }
    }
    links
  }
}
