/** The data service (services/creatorService.ts) with its database calls
    abstracted: a query or an insert is represented by the reply the
    database gave, and each `Math.random()` draw by an integer parameter in
    the range `Math.floor` can produce. */
module CreatorService {
  import opened Common
  import opened Text
  import opened Types

  /** A row of the `creators` table as the query returns it. */
  datatype Row = Row(
    id: string,
    name: string,
    username: string,
    age: Option<int>,
    phone: Option<string>,
    bio: Option<string>,
    avatar: string,
    location_city: Option<string>,
    location_area: Option<string>,
    base_rate: Option<int>,
    online: bool,
    photos: Option<seq<string>>,
    about_tags: Option<seq<string>>,
    services_tags: Option<seq<string>>,
    rating: Option<real>)

  /** `Math.floor(Math.random() * 30)` */
  type RatingDraw = d: int | 0 <= d < 30

  /** `Math.floor(Math.random() * 1000)` */
  type UsernameDraw = n: int | 0 <= n < 1000

  /** What the select query on `creators` came back with. */
  datatype QueryReply =
    | QueryThrew                           // the call itself threw
    | QueryError                           // the reply carried an `error`
    | QueryData(rows: Option<seq<Row>>)    // the reply's `data`, possibly null

  /** `list || []` */
  function OrEmpty(list: Option<seq<string>>): seq<string> {
    if list.Some? then list.value else []
  }

  /** `rating || 5`: a missing or zero rating reads as 5. */
  function RatingOr5(rating: Option<real>): (r: real)
    ensures r != 0.0
    ensures rating.Some? && rating.value != 0.0 ==> r == rating.value
    ensures rating.None? || rating.value == 0.0 ==> r == 5.0
  {
    if rating.Some? && rating.value != 0.0 then rating.value else 5.0
  }

  /** The object literal `getAll` builds from one row. The row carries no
      gender, description or WhatsApp number, so the creator has none. */
  function FromRow(row: Row, draw: RatingDraw): (c: Creator)
    ensures c.id == row.id && c.name == row.name && c.username == row.username
    ensures c.age == row.age && c.phone == row.phone && c.bio == row.bio && c.avatar == row.avatar
    ensures c.location_city == row.location_city && c.location_area == row.location_area
    ensures c.baseRate == row.base_rate && c.online == row.online
    ensures c.rating == RatingOr5(row.rating)
    ensures c.ratingCount == Some(draw as int + 1) && 1 <= c.ratingCount.value <= 30
    ensures c.photos == Some(OrEmpty(row.photos))
    ensures c.aboutTags == Some(OrEmpty(row.about_tags))
    ensures c.servicesTags == Some(OrEmpty(row.services_tags))
    ensures c.gender == None && c.description == None && c.whatsapp == None
  {
    Creator(
      id := row.id,
      name := row.name,
      username := row.username,
      bio := row.bio,
      avatar := row.avatar,
      rating := RatingOr5(row.rating),
      ratingCount := Some(draw as int + 1),
      online := row.online,
      baseRate := row.base_rate,
      age := row.age,
      phone := row.phone,
      location_area := row.location_area,
      location_city := row.location_city,
      photos := Some(OrEmpty(row.photos)),
      aboutTags := Some(OrEmpty(row.about_tags)),
      servicesTags := Some(OrEmpty(row.services_tags)),
      gender := None,
      description := None,
      whatsapp := None)
  }

  /** `getAll()`: the empty list whenever there is no client, the query
      throws or reports an error, or its data is null; otherwise one creator
      per row, in the order of the rows, with `base_rate`, `about_tags` and
      `services_tags` renamed. */
  function GetAll(clientPresent: bool, reply: QueryReply, draws: seq<RatingDraw>): (r: seq<Creator>)
    requires reply.QueryData? && reply.rows.Some? ==> |draws| == |reply.rows.value|
    ensures !clientPresent || !reply.QueryData? || reply.rows.None? ==> r == []
    ensures clientPresent && reply.QueryData? && reply.rows.Some? ==>
      |r| == |reply.rows.value| &&
      forall i :: 0 <= i < |r| ==>
        var row := reply.rows.value[i];
        && r[i] == FromRow(row, draws[i])
        && r[i].id == row.id && r[i].name == row.name && r[i].username == row.username
        && r[i].age == row.age && r[i].phone == row.phone && r[i].bio == row.bio
        && r[i].avatar == row.avatar && r[i].location_area == row.location_area
        && r[i].baseRate == row.base_rate
        && r[i].photos == Some(OrEmpty(row.photos))
        && r[i].aboutTags == Some(OrEmpty(row.about_tags))
        && r[i].servicesTags == Some(OrEmpty(row.services_tags))
        && r[i].location_city == row.location_city
        && r[i].online == row.online
        && r[i].rating == RatingOr5(row.rating)
        && r[i].ratingCount == Some(draws[i] as int + 1)
    ensures forall i :: 0 <= i < |r| ==> r[i].gender == None && r[i].ratingCount.Some? && 1 <= r[i].ratingCount.value <= 30
  {
    if !clientPresent then []
    else match reply
      case QueryThrew => []
      case QueryError => []
      case QueryData(rows) =>
        if rows.None? then []
        else seq(|rows.value|, i requires 0 <= i < |rows.value| => FromRow(rows.value[i], draws[i]))
  }

  /** The `Partial<Creator>` that `create` receives. */
  datatype CreatorInput = CreatorInput(
    name: Option<string>,
    phone: Option<string>,
    age: Option<int>,
    bio: Option<string>,
    avatar: Option<string>,
    location_city: Option<string>,
    location_area: Option<string>,
    baseRate: Option<int>,
    photos: Option<seq<string>>,
    aboutTags: Option<seq<string>>,
    servicesTags: Option<seq<string>>)

  /** The row `create` inserts. */
  datatype Payload = Payload(
    name: Option<string>,
    username: string,
    age: int,
    phone: Option<string>,
    bio: Option<string>,
    avatar: Option<string>,
    location_city: Option<string>,
    location_area: Option<string>,
    base_rate: int,
    photos: seq<string>,
    about_tags: seq<string>,
    services_tags: seq<string>,
    online: bool,
    rating: int)

  /** `@${name?.toLowerCase().replace(/\s/g, '_')}_${draw}`; a missing name
      prints as `undefined`. */
  function Username(name: Option<string>, draw: UsernameDraw): (u: string)
    ensures |u| > 0 && u[0] == '@'
    ensures forall i :: 0 <= i < |u| ==> !IsWhitespace(u[i])
  {
    "@" + ReplaceWhitespace(Lower(Interpolate(name)), '_') + "_" + Decimal(draw)
  }

  /** The user name is the lower-cased name with every whitespace character
      turned into `_`, framed by `@` and `_`, and the random suffix reads
      back as the number drawn. */
  lemma UsernameParts(name: Option<string>, draw: UsernameDraw)
    ensures var u := Username(name, draw);
      var n := |Interpolate(name)|;
      && |u| == n + 2 + |Decimal(draw)|
      && (forall i :: 0 <= i < n ==>
            u[i + 1] == if IsWhitespace(LowerChar(Interpolate(name)[i])) then '_' else LowerChar(Interpolate(name)[i]))
      && u[n + 1] == '_'
      && ParseInt(u[n + 2..]) == Some(draw)
  {
    var u := Username(name, draw);
    var n := |Interpolate(name)|;
    assert u[n + 2..] == Decimal(draw);
    ParseIntDecimal(draw);
  }

  /** The payload `create` builds: `Number(age) || 18`,
      `Number(baseRate) || 0`, empty lists for missing photos and tags,
      online and rated 5. */
  function BuildPayload(input: CreatorInput, draw: UsernameDraw): (p: Payload)
    ensures p.age != 0 && p.online && p.rating == 5
    ensures input.age.Some? && input.age.value != 0 ==> p.age == input.age.value
    ensures input.age.None? || input.age.value == 0 ==> p.age == 18
    ensures input.baseRate.Some? ==> p.base_rate == input.baseRate.value
    ensures input.baseRate.None? ==> p.base_rate == 0
    ensures p.photos == OrEmpty(input.photos) && p.about_tags == OrEmpty(input.aboutTags)
    ensures p.services_tags == OrEmpty(input.servicesTags)
    ensures p.name == input.name && p.avatar == input.avatar && p.location_city == input.location_city
    ensures p.phone == input.phone && p.bio == input.bio && p.location_area == input.location_area
    ensures p.username == Username(input.name, draw)
  {
    Payload(
      name := input.name,
      username := Username(input.name, draw),
      age := IntOr(input.age, 18),
      phone := input.phone,
      bio := input.bio,
      avatar := input.avatar,
      location_city := input.location_city,
      location_area := input.location_area,
      base_rate := IntOr(input.baseRate, 0),
      photos := OrEmpty(input.photos),
      about_tags := OrEmpty(input.aboutTags),
      services_tags := OrEmpty(input.servicesTags),
      online := true,
      rating := 5)
  }

  /** What the insert of the payload came back with. */
  datatype InsertReply = Inserted(data: seq<Row>) | InsertFailed(code: string)

  /** Why `create` threw. */
  datatype CreateError = NoClient | MissingTable | DatabaseError(code: string)

  /** One `create` call: the payload sent (none without a client) and what the
      call resolved to or threw. */
  datatype CreateOutcome = CreateOutcome(sent: Option<Payload>, result: Result<seq<Row>, CreateError>)

  /** `create(input)`: throws without a client and sends nothing; otherwise
      sends the payload and returns the inserted data, or throws the
      missing-table error for code `42P01` and the database's error for any
      other code. */
  function Create(clientPresent: bool, input: CreatorInput, draw: UsernameDraw, reply: InsertReply): (r: CreateOutcome)
    ensures r.sent.Some? <==> clientPresent
    ensures r.sent.Some? ==> r.sent.value == BuildPayload(input, draw)
    ensures !clientPresent ==> r.result == Failure(NoClient)
    ensures clientPresent ==> (r.result.Success? <==> reply.Inserted?)
    ensures clientPresent && reply.InsertFailed? ==>
      r.result == Failure(if reply.code == "42P01" then MissingTable else DatabaseError(reply.code))
  {
    if !clientPresent then CreateOutcome(None, Failure(NoClient))
    else
      var sent := Some(BuildPayload(input, draw));
      match reply
      case Inserted(data) => CreateOutcome(sent, Success(data))
      case InsertFailed(code) =>
        CreateOutcome(sent, Failure(if code == "42P01" then MissingTable else DatabaseError(code)))
  }

  /** `creatorService.delete(id)` as the admin screen calls it. The service
      object defines only `getAll` and `create`, so the call is a call of
      `undefined`, which throws a `TypeError` whatever the id. */
  function DeleteAsWritten(id: string): (r: Result<(), string>)
    ensures r.Failure?
  {
    Failure("creatorService.delete is not a function")
  }

  /** What a delete of the row with a given id came back with. */
  datatype DeleteReply = Deleted | DeleteFailed(code: string)

  /** The delete the admin screen expects, written like `create`: it throws
      without a client or when the database reports an error, and resolves
      otherwise. */
  function Delete(clientPresent: bool, id: string, reply: DeleteReply): (r: Result<(), CreateError>)
    ensures r.Success? <==> clientPresent && reply.Deleted?
    ensures !clientPresent ==> r == Failure(NoClient)
    ensures clientPresent && reply.DeleteFailed? ==> r == Failure(DatabaseError(reply.code))
  {
    if !clientPresent then Failure(NoClient)
    else match reply
      case Deleted => Success(())
      case DeleteFailed(code) => Failure(DatabaseError(code))
  }
}
