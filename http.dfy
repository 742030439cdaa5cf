/** What the request handlers read from an `HttpListenerRequest` and what they write
    back: a status code and a body. Writing the response (`Ok`, `BadRequest`,
    `InternalServerError`, `MethodNotAllowed`) is reduced to building this value. */
module Http {
  import opened Results
  import opened Models
  import opened Ascii

  const StatusOk := 200
  const StatusBadRequest := 400
  const StatusMethodNotAllowed := 405
  const StatusInternalServerError := 500

  /** One decoded `name=value` pair of the query string. */
  datatype Param = Param(name: string, value: string)

  /** The method and the decoded query string of a request, pair by pair in URL order. */
  datatype Request = Request(httpMethod: string, query: seq<Param>)

  /** `QueryString` is a `NameValueCollection`: its keys are compared ignoring case. */
  predicate SameKey(a: string, b: string)
  {
    Lower(a) == Lower(b)
  }

  /** The values given for `name`, ignoring case, in URL order. */
  function ValuesOf(query: seq<Param>, name: string): (values: seq<string>)
    ensures |values| <= |query|
  {
    if query == [] then []
    else (if SameKey(query[0].name, name) then [query[0].value] else []) + ValuesOf(query[1..], name)
  }

  /** `NameValueCollection.Get` joins the values of a repeated key with commas. */
  function JoinWithCommas(values: seq<string>): string
    requires values != []
  {
    if |values| == 1 then values[0] else values[0] + "," + JoinWithCommas(values[1..])
  }

  /** `request.QueryString.Get(name)`: null when no parameter has that name. */
  function Get(req: Request, name: string): (r: Option<string>)
  {
    var values := ValuesOf(req.query, name);
    if values == [] then None else Some(JoinWithCommas(values))
  }

  lemma {:induction false} ValuesOfEmpty(query: seq<Param>, name: string)
    ensures ValuesOf(query, name) == [] <==> forall i :: 0 <= i < |query| ==> !SameKey(query[i].name, name)
  {
    if query != [] {
      ValuesOfEmpty(query[1..], name);
      assert forall i :: 1 <= i < |query| ==> query[1..][i - 1] == query[i];
    }
  }

  /** A parameter is present exactly when some pair carries its name, in any case. */
  lemma GetPresence(req: Request, name: string)
    ensures Get(req, name).Some? <==> exists i :: 0 <= i < |req.query| && SameKey(req.query[i].name, name)
  {
    ValuesOfEmpty(req.query, name);
  }

  lemma {:induction false} ValuesOfIgnoresCase(query: seq<Param>, a: string, b: string)
    requires Lower(a) == Lower(b)
    ensures ValuesOf(query, a) == ValuesOf(query, b)
  {
    if query != [] {
      ValuesOfIgnoresCase(query[1..], a, b);
    }
  }

  /** Two names that differ only in case read the same parameter. */
  lemma GetIgnoresCase(req: Request, a: string, b: string)
    requires Lower(a) == Lower(b)
    ensures Get(req, a) == Get(req, b)
  {
    ValuesOfIgnoresCase(req.query, a, b);
  }

  lemma {:induction false} ValuesOfUnique(query: seq<Param>, name: string, k: nat)
    requires k < |query| && SameKey(query[k].name, name)
    requires forall i :: 0 <= i < |query| && i != k ==> !SameKey(query[i].name, name)
    ensures ValuesOf(query, name) == [query[k].value]
  {
    if k == 0 {
      ValuesOfEmpty(query[1..], name);
      assert forall i :: 1 <= i < |query| ==> query[1..][i - 1] == query[i];
    } else {
      ValuesOfUnique(query[1..], name, k - 1);
    }
  }

  /** A name given once reads its value. */
  lemma GetSingle(req: Request, name: string, k: nat)
    requires k < |req.query| && SameKey(req.query[k].name, name)
    requires forall i :: 0 <= i < |req.query| && i != k ==> !SameKey(req.query[i].name, name)
    ensures Get(req, name) == Some(req.query[k].value)
  {
    ValuesOfUnique(req.query, name, k);
  }

  /** A name given twice reads both values, in URL order, joined by a comma. */
  lemma GetRepeated(req: Request, name: string, j: nat, k: nat)
    requires j < k < |req.query| && SameKey(req.query[j].name, name) && SameKey(req.query[k].name, name)
    requires forall i :: 0 <= i < |req.query| && i != j && i != k ==> !SameKey(req.query[i].name, name)
    ensures Get(req, name) == Some(req.query[j].value + "," + req.query[k].value)
  {
    var q := req.query;
    var tail := q[j + 1..];
    assert forall i :: 0 <= i < |tail| ==> tail[i] == q[i + j + 1];
    ValuesOfUnique(tail, name, k - j - 1);
    ValuesOfSkip(q, name, j);
    var values := [q[j].value, q[k].value];
    assert ValuesOf(q, name) == values;
    assert values[1..] == [q[k].value];
    assert JoinWithCommas(values[1..]) == q[k].value;
    assert JoinWithCommas(values) == q[j].value + "," + q[k].value;
  }

  /** Pairs before the first match contribute nothing. */
  lemma {:induction false} ValuesOfSkip(query: seq<Param>, name: string, j: nat)
    requires j < |query| && SameKey(query[j].name, name)
    requires forall i :: 0 <= i < j ==> !SameKey(query[i].name, name)
    ensures ValuesOf(query, name) == [query[j].value] + ValuesOf(query[j + 1..], name)
  {
    if j > 0 {
      ValuesOfSkip(query[1..], name, j - 1);
      assert query[1..][j..] == query[j + 1..];
    }
  }

  /** `string.IsNullOrEmpty`. */
  predicate IsNullOrEmpty(s: Option<string>)
  {
    s.None? || s.value == ""
  }

  datatype Body =
    | Empty
    | Message(text: string)
    | TrackList(tracks: seq<Track>)
    | AlbumList(albums: seq<Album>)

  datatype Response = Response(status: int, body: Body)

  function MethodNotAllowed(): Response { Response(StatusMethodNotAllowed, Empty) }

  function BadRequest(message: string): Response { Response(StatusBadRequest, Message(message)) }

  function InternalServerError(message: string): Response { Response(StatusInternalServerError, Message(message)) }
}
