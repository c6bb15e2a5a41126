/** The oRPC todo procedures: both sit behind the guard and talk to a remote
    posts service whose reply is a parameter of the model. */
module OrpcTodo {
  import opened Wrappers
  import opened Json
  import opened Cookies
  import opened Rpc
  import opened OrpcSession

  /** TodoSchema's fields. */
  datatype Todo = Todo(id: int, title: string, body: string, userId: int)

  /** TodoSchema.parse: an object with numeric id and userId and string title
      and body; other keys are stripped. */
  function ParseTodo(j: Json): (r: Option<Todo>)
    ensures r.Some? ==> j.JObject?
    ensures r.Some? ==>
      Lookup(j.members, "id") == Some(JNum(r.value.id))
      && Lookup(j.members, "title") == Some(JStr(r.value.title))
      && Lookup(j.members, "body") == Some(JStr(r.value.body))
      && Lookup(j.members, "userId") == Some(JNum(r.value.userId))
    ensures HasNumber(j, "id") && HasString(j, "title") && HasString(j, "body") && HasNumber(j, "userId") ==>
      r == Some(Todo(Lookup(j.members, "id").value.n, Lookup(j.members, "title").value.s,
                     Lookup(j.members, "body").value.s, Lookup(j.members, "userId").value.n))
  {
    if !j.JObject? then None
    else
      match (Lookup(j.members, "id"), Lookup(j.members, "title"),
             Lookup(j.members, "body"), Lookup(j.members, "userId"))
      case (Some(JNum(id)), Some(JStr(title)), Some(JStr(body)), Some(JNum(userId))) =>
        Some(Todo(id, title, body, userId))
      case _ => None
  }

  /** A todo as the service sends it. */
  function TodoJson(t: Todo): Json {
    JObject([Member("id", JNum(t.id)), Member("title", JStr(t.title)),
             Member("body", JStr(t.body)), Member("userId", JNum(t.userId))])
  }

  /** The four keys TodoSchema reads. */
  predicate TodoKey(key: string) {
    key == "id" || key == "title" || key == "body" || key == "userId"
  }

  /** Key order and keys TodoSchema does not know do not matter: any object
      carrying a todo's four typed members, in any order, and no other
      member under those keys, reads as that todo. */
  lemma {:induction false} ParseTodoAnyOrder(t: Todo, ms: seq<Member>)
    requires forall m :: m in TodoJson(t).members ==> m in ms
    requires forall i :: 0 <= i < |ms| && TodoKey(ms[i].key) ==> ms[i] in TodoJson(t).members
    ensures ParseTodo(JObject(ms)) == Some(t)
  {
    var fields := TodoJson(t).members;
    assert fields[0] in fields && fields[1] in fields && fields[2] in fields && fields[3] in fields;
    LookupAgrees(ms, fields[0]);
    LookupAgrees(ms, fields[1]);
    LookupAgrees(ms, fields[2]);
    LookupAgrees(ms, fields[3]);
    assert Lookup(ms, "id") == Some(JNum(t.id));
    assert Lookup(ms, "title") == Some(JStr(t.title));
    assert Lookup(ms, "body") == Some(JStr(t.body));
    assert Lookup(ms, "userId") == Some(JNum(t.userId));
  }

  /** TodoSchema.parse reads back every todo the service renders. */
  lemma {:induction false} ParseTodoJson(t: Todo)
    ensures ParseTodo(TodoJson(t)) == Some(t)
  {
    ParseTodoAnyOrder(t, TodoJson(t).members);
  }

  /** What the remote service answered: no answer at all, or a status and a
      body that is None when it is not JSON of the expected shape. */
  datatype Reply<T> = NetworkError | Reply(ok: bool, body: Option<T>)

  /** The typed errors the procedures declare. */
  const FailedToCreate: RpcError := RpcError(BAD_RESPONSE, 502, Some("Failed to create todo"))
  const FailedToFetch: RpcError := RpcError(BAD_RESPONSE, 502, Some("Failed to fetch todos"))
  const NotAllowed: RpcError := RpcError(FORBIDDEN, 403, Some("You are not authorized to do this"))

  /** createTodo's input after validation; userId absent means the default. */
  datatype TodoInput = TodoInput(title: string, body: string, userId: Option<int>)

  const DefaultUserId: int := 1

  /** The JSON body createTodo posts: the validated input, with the userId
      default filled in. */
  function CreatePayload(input: TodoInput): Json {
    JObject([Member("title", JStr(input.title)), Member("body", JStr(input.body)),
             Member("userId", JNum(input.userId.GetOr(DefaultUserId)))])
  }

  /** The posted text parses back to the input, and an omitted userId
      arrives as 1. */
  lemma {:induction false} CreatePayloadRoundTrip(input: TodoInput)
    ensures Parse(Serialize(CreatePayload(input))) == Some(CreatePayload(input))
    ensures input.userId.None? ==>
      Lookup(CreatePayload(input).members, "userId") == Some(JNum(1))
  {
    ParseSerialize(CreatePayload(input));
  }

  /** createTodo's result once the cookie is set: the echoed todo, stripped
      to TodoSchema, or the declared bad-response error for a network
      failure, a failure status or a body that is not a todo. */
  function CreateResult(reply: Reply<Json>): (r: Result<Todo, RpcError>)
    ensures r.Ok? <==> reply.Reply? && reply.ok && reply.body.Some? && ParseTodo(reply.body.value).Some?
    ensures r.Ok? ==> Some(r.value) == ParseTodo(reply.body.value)
    ensures r.Err? ==> r.error == FailedToCreate
  {
    match reply
    case NetworkError => Err(FailedToCreate)
    case Reply(ok, body) =>
      if !ok || body.None? then Err(FailedToCreate)
      else
        match ParseTodo(body.value)
        case None => Err(FailedToCreate)
        case Some(t) => Ok(t)
  }

  /** createTodo: behind the guard, stores the title in an "input" cookie
      with no attributes, then posts `JSON.stringify(input)` to the service;
      the service's answer to that text decides the result. */
  method CreateTodo(ctx: Context, headers: map<string, string>, store: CookieStore,
                    input: TodoInput, service: string -> Reply<Json>)
    returns (r: Result<Todo, RpcError>)
    modifies store
    ensures Authed(ctx, Request(headers, old(store.jar))).Err? ==>
      r == Err(Plain(UNAUTHORIZED)) && store.jar == old(store.jar)
    ensures Authed(ctx, Request(headers, old(store.jar))).Ok? ==>
      r == CreateResult(service(Serialize(CreatePayload(input))))
      && store.jar == old(store.jar)["input" := Cookie(input.title, NoOptions)]
  {
    var passed := Authed(ctx, Request(headers, store.jar));
    if passed.Err? {
      return Err(passed.error);
    }
    store.Set("input", input.title, NoOptions);
    var body := Serialize(CreatePayload(input));
    r := CreateResult(service(body));
  }

  /** A service that answers the posted payload with a fresh id added (as
      the posts service does) yields the input as a todo, an omitted userId
      arriving as 1. */
  lemma {:induction false} EchoedPayloadCreates(input: TodoInput, id: int)
    ensures CreateResult(Reply(true, Some(JObject(CreatePayload(input).members + [Member("id", JNum(id))]))))
            == Ok(Todo(id, input.title, input.body, input.userId.GetOr(DefaultUserId)))
  {
    var uid := input.userId.GetOr(DefaultUserId);
    var ms := CreatePayload(input).members + [Member("id", JNum(id))];
    assert ms == [Member("title", JStr(input.title)), Member("body", JStr(input.body)),
                  Member("userId", JNum(uid)), Member("id", JNum(id))];
    LookupLast(ms, 0, "title");
    LookupLast(ms, 1, "body");
    LookupLast(ms, 2, "userId");
    LookupLast(ms, 3, "id");
    assert ParseTodo(JObject(ms)) == Some(Todo(id, input.title, input.body, uid));
  }

  /** Every element of the list is a todo (z.array(TodoSchema).parse). */
  predicate AllTodos(items: seq<Json>) {
    forall i :: 0 <= i < |items| ==> ParseTodo(items[i]).Some?
  }

  function Min(a: int, b: int): int {
    if a <= b then a else b
  }

  /** getTodos. A JavaScript number amount; the input schema wants
      1 <= amount <= 200, more than 10 is forbidden before the service is
      asked, and a good reply is cut to the first amount elements (slice
      truncates a fraction) as received, not as stripped by validation. */
  function GetTodos(ctx: Context, req: Request, amount: real, reply: Reply<seq<Json>>)
    : (r: Result<seq<Json>, RpcError>)
    ensures !SignedIn(ResolveSession(ctx, req)) ==> r == Err(Plain(UNAUTHORIZED))
    ensures SignedIn(ResolveSession(ctx, req)) && !(1.0 <= amount <= 200.0) ==> r == Err(Plain(BAD_REQUEST))
    ensures SignedIn(ResolveSession(ctx, req)) && 10.0 < amount <= 200.0 ==> r == Err(NotAllowed)
    ensures r.Ok? <==>
      SignedIn(ResolveSession(ctx, req)) && 1.0 <= amount <= 10.0
      && reply.Reply? && reply.ok && reply.body.Some? && AllTodos(reply.body.value)
    ensures r.Ok? ==>
      1 <= amount.Floor <= 10
      && r.value == reply.body.value[..Min(amount.Floor, |reply.body.value|)]
    ensures r.Err? && SignedIn(ResolveSession(ctx, req)) && 1.0 <= amount <= 10.0 ==> r.error == FailedToFetch
  {
    match Authed(ctx, req)
    case Err(e) => Err(e)
    case Ok(_) =>
      if !(1.0 <= amount <= 200.0) then Err(Plain(BAD_REQUEST))
      else if amount > 10.0 then Err(NotAllowed)
      else
        match reply
        case NetworkError => Err(FailedToFetch)
        case Reply(ok, body) =>
          if !ok || body.None? || !AllTodos(body.value) then Err(FailedToFetch)
          else Ok(body.value[..Min(amount.Floor, |body.value|)])
  }

  /** A successful getTodos returns at most ten todos, each unchanged from
      the service's list, in the service's order. */
  lemma {:induction false} GetTodosBounded(ctx: Context, req: Request, amount: real, reply: Reply<seq<Json>>)
    requires GetTodos(ctx, req, amount, reply).Ok?
    ensures var items := GetTodos(ctx, req, amount, reply).value;
      |items| <= 10 && |items| <= |reply.body.value| && AllTodos(items)
      && forall i :: 0 <= i < |items| ==> items[i] == reply.body.value[i]
  {
    var items := GetTodos(ctx, req, amount, reply).value;
    assert items == reply.body.value[..Min(amount.Floor, |reply.body.value|)];
  }
}
