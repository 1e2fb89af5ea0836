/** The collection endpoint of the VM service (`/api/vms`): GET lists every
    stored record newest first, POST validates a create request, fills in
    defaults for the usage fields and inserts one record.

    The SQL datastore is a sequence of rows. The outcome of each statement
    the handler awaits (the connection test and the list query for GET, the
    body parse and the INSERT for POST) is passed in, so every path through a
    handler is deterministic. `VmsHandler` performs the handler's steps on
    the table; `GetResponse` and `PostStep` state their settled effect. */
module VmsRoute {
  import opened Outcomes

  /** A JSON value as far as JavaScript truthiness goes. Numbers are integers. */
  datatype Json =
    | Missing              // the property is absent: `undefined`
    | Null
    | Bool(b: bool)
    | Num(n: int)
    | Str(s: string)
    | Compound             // an object or an array: always truthy

  predicate Truthy(j: Json) {
    match j
    case Missing => false
    case Null => false
    case Bool(b) => b
    case Num(n) => n != 0
    case Str(s) => s != ""
    case Compound => true
  }

  /** `x || 0`: the result is truthy exactly when the input is, it differs
      from the input only where the input is falsy, and the only falsy value
      it can be is the number 0. */
  function OrZero(j: Json): (r: Json)
    ensures Truthy(r) <==> Truthy(j)
    ensures r != j ==> !Truthy(j)
    ensures Truthy(r) || r == Num(0)
  {
    if Truthy(j) then j else Num(0)
  }

  /** The seven properties POST destructures from the request body. */
  datatype Body = Body(
    name: Json,
    region: Json,
    status: Json,
    cpu: Json,
    memory: Json,
    storage: Json,
    ipAddress: Json)

  /** What reading the body gave: its properties, or the value `request.json()`
      (or destructuring a `null` body) threw. */
  datatype ParsedBody = BodyOk(body: Body) | BodyError(thrown: Thrown)

  /** A stored record. The datastore assigns the id and both timestamps. */
  datatype Row = Row(
    id: int,
    name: Json,
    region: Json,
    status: Json,
    cpu: Json,
    memory: Json,
    storage: Json,
    ipAddress: Json,
    createdAt: int,
    updatedAt: int)

  /** The outcome of the INSERT: the id and timestamps the datastore assigned,
      or the error it raised. */
  datatype InsertOutcome = Assigned(id: int, createdAt: int, updatedAt: int) | InsertFailed(thrown: Thrown)

  /** A response of the endpoint, by HTTP status. */
  datatype Response =
    | ListOk(rows: seq<Row>)                                             // 200
    | CreatedOk(row: Row)                                                // 201
    | BadRequest(error: string)                                          // 400
    | ServerError(error: string, details: string, timestamp: Option<string>) // 500

  function StatusCode(r: Response): nat {
    match r
    case ListOk(_) => 200
    case CreatedOk(_) => 201
    case BadRequest(_) => 400
    case ServerError(_, _, _) => 500
  }

  const MissingFieldsError := "Missing required fields: name, region, status, ipAddress"
  const CreateError := "Failed to create VM"
  const FetchError := "Failed to fetch VMs"

  // ---- POST ----

  /** The required-field check: all of name, region, status and ipAddress are truthy. */
  predicate HasRequired(b: Body) {
    Truthy(b.name) && Truthy(b.region) && Truthy(b.status) && Truthy(b.ipAddress)
  }

  /** The row the INSERT stores for a validated body: a body that passed the
      check gives a row whose four required fields are truthy; no usage
      figure is stored as a falsy value other than 0, and a truthy one is
      stored as sent; the id and timestamps are the datastore's. */
  function NewRow(b: Body, id: int, createdAt: int, updatedAt: int): (row: Row)
    ensures HasRequired(b) ==>
              Truthy(row.name) && Truthy(row.region) && Truthy(row.status) && Truthy(row.ipAddress)
    ensures (Truthy(row.cpu) || row.cpu == Num(0)) && (Truthy(row.memory) || row.memory == Num(0)) &&
            (Truthy(row.storage) || row.storage == Num(0))
    ensures (Truthy(b.cpu) ==> row.cpu == b.cpu) && (Truthy(b.memory) ==> row.memory == b.memory) &&
            (Truthy(b.storage) ==> row.storage == b.storage)
    ensures row.id == id && row.createdAt == createdAt && row.updatedAt == updatedAt
  {
    Row(id, b.name, b.region, b.status, OrZero(b.cpu), OrZero(b.memory), OrZero(b.storage),
        b.ipAddress, createdAt, updatedAt)
  }

  datatype PostResult = PostResult(response: Response, table: seq<Row>)

  /** The settled effect of POST on a table: its response and the table after it. */
  function PostStep(table: seq<Row>, parsed: ParsedBody, insert: InsertOutcome): (p: PostResult)
    ensures p.response.BadRequest? <==> parsed.BodyOk? && !HasRequired(parsed.body)
    ensures p.response.BadRequest? ==> p.response.error == MissingFieldsError
    ensures p.response.CreatedOk? <==> parsed.BodyOk? && HasRequired(parsed.body) && insert.Assigned?
    ensures p.response.CreatedOk? ==>
              p.response.row == NewRow(parsed.body, insert.id, insert.createdAt, insert.updatedAt) &&
              p.table == table + [p.response.row]
    ensures !p.response.CreatedOk? ==> p.table == table
    ensures p.response.ServerError? ==>
              p.response.error == CreateError && p.response.timestamp == None &&
              p.response.details == CaughtMessage(
                if parsed.BodyError? then parsed.thrown else insert.thrown, "Unknown error")
    ensures !p.response.ListOk?
  {
    match parsed
    case BodyError(t) => PostResult(ServerError(CreateError, CaughtMessage(t, "Unknown error"), None), table)
    case BodyOk(b) =>
      if !HasRequired(b) then PostResult(BadRequest(MissingFieldsError), table)
      else
        match insert
        case InsertFailed(t) => PostResult(ServerError(CreateError, CaughtMessage(t, "Unknown error"), None), table)
        case Assigned(id, c, u) =>
          var row := NewRow(b, id, c, u);
          PostResult(CreatedOk(row), table + [row])
  }

  /** A body missing any one required field, or holding it as a falsy value
      such as "", 0 or null, is refused whatever the other fields hold. */
  lemma RequiredFieldRefused(table: seq<Row>, b: Body, insert: InsertOutcome)
    requires !Truthy(b.name) || !Truthy(b.region) || !Truthy(b.status) || !Truthy(b.ipAddress)
    ensures StatusCode(PostStep(table, BodyOk(b), insert).response) == 400
    ensures PostStep(table, BodyOk(b), insert).table == table
  {
  }

  /** A usage field is stored as given unless it is falsy: any non-zero number
      is kept, however large or negative; an absent, null or zero value becomes 0. */
  lemma UsageDefaulting(j: Json)
    ensures (j == Missing || j == Null || j == Num(0)) ==> OrZero(j) == Num(0)
    ensures forall n: int :: n != 0 ==> OrZero(Num(n)) == Num(n)
    ensures OrZero(OrZero(j)) == OrZero(j)
  {
  }

  /** A created record echoes the request's name, region, status and ipAddress,
      and the table gains exactly that record. */
  lemma CreatedEchoesRequest(table: seq<Row>, b: Body, id: int, c: int, u: int)
    requires HasRequired(b)
    ensures var p := PostStep(table, BodyOk(b), Assigned(id, c, u));
            StatusCode(p.response) == 201 &&
            p.response.row.name == b.name && p.response.row.region == b.region &&
            p.response.row.status == b.status && p.response.row.ipAddress == b.ipAddress &&
            |p.table| == |table| + 1 && p.table[|table|] == p.response.row
  {
  }

  // ---- GET ----

  predicate SortedDesc(s: seq<Row>) {
    forall i, j :: 0 <= i < j < |s| ==> s[i].createdAt >= s[j].createdAt
  }

  /** Places r before the first row that is not newer than it. */
  function InsertDesc(r: Row, s: seq<Row>): (t: seq<Row>)
    requires SortedDesc(s)
    ensures SortedDesc(t)
    ensures |t| == |s| + 1
    ensures t[0] == r || (s != [] && t[0] == s[0])
    decreases |s|
  {
    if s == [] then [r]
    else if r.createdAt >= s[0].createdAt then [r] + s
    else
      var rest := InsertDesc(r, s[1..]);
      assert s == [s[0]] + s[1..];
      assert rest[0].createdAt <= s[0].createdAt;
      ConsSorted(s[0], rest);
      [s[0]] + rest
  }

  /** Inserting adds the row and loses none. */
  lemma {:induction false} InsertDescMultiset(r: Row, s: seq<Row>)
    requires SortedDesc(s)
    ensures multiset(InsertDesc(r, s)) == multiset(s) + multiset{r}
    decreases |s|
  {
    if s != [] && r.createdAt < s[0].createdAt {
      InsertDescMultiset(r, s[1..]);
      assert s == [s[0]] + s[1..];
    }
  }

  /** A row no older than the head of a newest-first list can go in front of it. */
  lemma ConsSorted(x: Row, s: seq<Row>)
    requires SortedDesc(s) && (s != [] ==> x.createdAt >= s[0].createdAt)
    ensures SortedDesc([x] + s)
  {
    var t := [x] + s;
    forall i, j | 0 <= i < j < |t| ensures t[i].createdAt >= t[j].createdAt {
      if i == 0 {
        assert t[j] == s[j - 1];
        assert s[0].createdAt >= s[j - 1].createdAt;
      } else {
        assert t[i] == s[i - 1] && t[j] == s[j - 1];
      }
    }
  }

  /** `ORDER BY created_at DESC`: the rows, newest first. Rows with equal
      timestamps keep their table order here; SQL leaves that order open. */
  function OrderByCreatedDesc(s: seq<Row>): (t: seq<Row>)
    ensures SortedDesc(t)
    ensures multiset(t) == multiset(s)
    ensures |t| == |s|
    decreases |s|
  {
    if s == [] then []
    else
      assert s == [s[0]] + s[1..];
      InsertDescMultiset(s[0], OrderByCreatedDesc(s[1..]));
      InsertDesc(s[0], OrderByCreatedDesc(s[1..]))
  }

  /** The settled response of GET. `failure` is what the connection test or
      the list query threw, if anything; `now` is the ISO text of the moment
      the error was reported. */
  function GetResponse(table: seq<Row>, failure: Option<Thrown>, now: string): (r: Response)
    ensures failure.None? <==> r.ListOk?
    ensures r.ListOk? ==> SortedDesc(r.rows) && multiset(r.rows) == multiset(table)
    ensures r.ServerError? ==>
              r.error == FetchError && r.timestamp == Some(now) &&
              r.details == CaughtMessage(failure.value, "Unknown error")
    ensures StatusCode(r) == 200 || StatusCode(r) == 500
  {
    match failure
    case None => ListOk(OrderByCreatedDesc(table))
    case Some(t) => ServerError(FetchError, CaughtMessage(t, "Unknown error"), Some(now))
  }

  /** A successful listing holds every stored row exactly once, and nothing else. */
  lemma {:induction false} ListingIsComplete(table: seq<Row>, now: string)
    ensures var r := GetResponse(table, None, now);
            |r.rows| == |table| &&
            (forall i :: 0 <= i < |table| ==> table[i] in r.rows) &&
            (forall i :: 0 <= i < |r.rows| ==> r.rows[i] in table)
  {
    var rows := GetResponse(table, None, now).rows;
    assert multiset(rows) == multiset(table);
    forall i | 0 <= i < |table| ensures table[i] in rows {
      assert table[i] in multiset(table);
    }
    forall i | 0 <= i < |rows| ensures rows[i] in table {
      assert rows[i] in multiset(rows);
    }
  }

  /** A row created by POST shows up in the next successful listing. */
  lemma CreatedRowListed(table: seq<Row>, b: Body, id: int, c: int, u: int, now: string)
    requires HasRequired(b)
    ensures var p := PostStep(table, BodyOk(b), Assigned(id, c, u));
            p.response.row in GetResponse(p.table, None, now).rows
  {
    var p := PostStep(table, BodyOk(b), Assigned(id, c, u));
    ListingIsComplete(p.table, now);
    assert p.table[|table|] == p.response.row;
  }

  // ---- The handler ----

  /** The endpoint over its datastore table. */
  class VmsHandler {
    var table: seq<Row>

    constructor (rows: seq<Row>)
      ensures table == rows
    {
      table := rows;
    }

    /** GET: the connection test, then the list query; either may throw. */
    method Get(failure: Option<Thrown>, now: string) returns (response: Response)
      ensures response == GetResponse(table, failure, now)
    {
      if failure.Some? {
        response := ServerError(FetchError, CaughtMessage(failure.value, "Unknown error"), Some(now));
        return;
      }
      var rows := OrderByCreatedDesc(table);
      response := ListOk(rows);
    }

    /** POST: parse the body, check the required fields, insert with defaults. */
    method Post(parsed: ParsedBody, insert: InsertOutcome) returns (response: Response)
      modifies this
      ensures PostResult(response, table) == PostStep(old(table), parsed, insert)
    {
      if parsed.BodyError? {
        response := ServerError(CreateError, CaughtMessage(parsed.thrown, "Unknown error"), None);
        return;
      }
      var b := parsed.body;
      if !Truthy(b.name) || !Truthy(b.region) || !Truthy(b.status) || !Truthy(b.ipAddress) {
        response := BadRequest(MissingFieldsError);
        return;
      }
      match insert {
        case InsertFailed(t) =>
          response := ServerError(CreateError, CaughtMessage(t, "Unknown error"), None);
        case Assigned(id, c, u) =>
          var row := Row(id, b.name, b.region, b.status, OrZero(b.cpu), OrZero(b.memory),
                         OrZero(b.storage), b.ipAddress, c, u);
          table := table + [row];
          response := CreatedOk(row);
      }
    }
  }
}
