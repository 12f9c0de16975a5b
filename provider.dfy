/** The data provider's operations (index.ts:63-318) with the network left out: each
    operation is the request it hands to the query builder and, given the reply the GraphQL
    client produced for it, the result it returns. A reply is an input: `Err` stands for a
    rejected request and is passed on unchanged. */
module Provider {
  import opened Js
  import opened Names
  import opened Translate

  datatype Kind = Query | Mutation

  /** What the provider passes to `gql.query` or `gql.mutation`: the operation name, the
      variables (each `{value, type}` or a bare value) and the field selection. */
  datatype Request = Request(kind: Kind, operation: string, variables: Option<map<string, Json>>, fields: Json)

  /** The `meta` argument of the CRUD contract; `Undefined` fields means none were given. */
  datatype Meta = Meta(operation: Option<string>, fields: Json, variables: Option<map<string, Json>>)

  /** Pagination as the caller gives it; each part may be absent. */
  datatype Pagination = Pagination(current: Option<int>, pageSize: Option<int>, mode: Option<string>)

  /** The envelope `getList` returns. */
  datatype ListPage = ListPage(data: seq<Json>, total: Json)

  /** A variable with its GraphQL type. */
  function Typed(value: Json, typ: string): Json {
    Obj(map["value" := value, "type" := Str(typ)])
  }

  /** The fields the caller gave in `meta`, or `undefined` when there is no `meta`. */
  function MetaFields(meta: Option<Meta>): Json {
    match meta
    case None => Undefined
    case Some(m) => m.fields
  }

  /** The caller's fields, or `fallback` when they are missing or `null`. */
  function FieldsOr(meta: Option<Meta>, fallback: Json): Json {
    var f := MetaFields(meta);
    if f.Undefined? || f.Null? then fallback else f
  }

  /** The operation name given in `meta`, or `fallback` when there is none. An empty name
      is kept, since only a missing one is replaced. */
  function OperationOr(meta: Option<Meta>, fallback: string): string {
    match meta
    case Some(Meta(Some(o), _, _)) => o
    case _ => fallback
  }

  /** The entries of `meta.variables`, none when either is missing. */
  function MetaVariables(meta: Option<Meta>): map<string, Json> {
    match meta
    case Some(Meta(_, _, Some(vs))) => vs
    case _ => map[]
  }

  /** A selection of `fields` nested under the one field `operation`, with no arguments. */
  function Nested(operation: string, fields: Json): Json {
    Arr([Obj(map["operation" := Str(operation), "fields" := fields, "variables" := Obj(map[])])])
  }

  /** The selection used when the caller gives none: the `id` of the singular record. */
  function DefaultFields(n: Naming, resource: string): Json {
    Nested(n.singular(resource), Arr([Str("id")]))
  }

  /** The property `key` of the reply's property `operation`; each read fails as in
      JavaScript when there is nothing to read from. */
  function Unwrap(reply: Result<Json>, operation: string, key: string): Result<Json> {
    var response :- reply;
    var payload :- Prop(response, operation);
    Prop(payload, key)
  }

  /** A reply whose `operation` field holds `{key: record}`. */
  function Answer(operation: string, key: string, record: Json): Json {
    Obj(map[operation := Obj(map[key := record])])
  }

  /** Reading a reply at the operation and key it was answered under gives the record back,
      and a rejected request stays rejected. */
  lemma UnwrapAnswer(operation: string, key: string, record: Json, e: Error)
    ensures Unwrap(Ok(Answer(operation, key, record)), operation, key) == Ok(record)
    ensures Unwrap(Err(e), operation, key) == Err(e)
  {
  }

  // ---------------------------------------------------------------- getList

  function CurrentPage(p: Option<Pagination>): int {
    match p
    case Some(Pagination(Some(c), _, _)) => c
    case _ => 1
  }

  function PageSize(p: Option<Pagination>): int {
    match p
    case Some(Pagination(_, Some(s), _)) => s
    case _ => 10
  }

  function Mode(p: Option<Pagination>): string {
    match p
    case Some(Pagination(_, _, Some(m))) => m
    case _ => "server"
  }

  /** The `skip`/`first` window, present in server mode only. */
  function PageVariables(p: Option<Pagination>): map<string, Json> {
    if Mode(p) == "server" then
      map["skip" := Num((CurrentPage(p) - 1) * PageSize(p)), "first" := Num(PageSize(p))]
    else map[]
  }

  /** The sort token as a variable value: `null` when there is none. */
  function SortValue(token: Option<string>): Json {
    match token
    case None => Null
    case Some(t) => Str(t)
  }

  function ListVariables(n: Naming, resource: string, pagination: Option<Pagination>,
                         sorters: Option<seq<Sorter>>, filters: Option<seq<Clause>>,
                         meta: Option<Meta>): map<string, Json>
  {
    MetaVariables(meta)
    + map["orderBy" := Typed(SortValue(GenerateSort(n, sorters)), TypeName(n, resource, "OrderByInput")),
          "where" := Typed(Obj(Filter(filters)), TypeName(n, resource, "WhereInput"))]
    + PageVariables(pagination)
  }

  /** The connection selection: the total count and the caller's fields on every node. */
  function ListFields(meta: Option<Meta>): Json {
    Arr([Obj(map["aggregate" := Arr([Str("count")]),
                 "edges" := Arr([Obj(map["node" := MetaFields(meta)])])])])
  }

  function ListRequest(n: Naming, resource: string, pagination: Option<Pagination>,
                       sorters: Option<seq<Sorter>>, filters: Option<seq<Clause>>,
                       meta: Option<Meta>): Request
  {
    Request(Query, ConnectionName(n, resource),
            Some(ListVariables(n, resource, pagination, sorters, filters, meta)), ListFields(meta))
  }

  /** The `getList` envelope: the node of every edge of the connection, in order, as `data`
      and the connection's aggregate count as `total`. A missing `edges` fails with the
      TypeError of calling `map` on it; any other non-array `edges` is not mappable. */
  function ListResult(operation: string, reply: Result<Json>): Result<ListPage> {
    var response :- reply;
    var connection :- Prop(response, operation);
    var edges :- Prop(connection, "edges");
    if edges.Undefined? || edges.Null? then Err(Prop(edges, "map").error)
    else if !edges.Arr? then Err(TypeError("edges.map is not a function"))
    else
      var data :- MapProp(edges.items, "node");
      // `connection` has just been read from, so it is neither undefined nor null.
      var aggregate := Prop(connection, "aggregate").value;
      var total :- Prop(aggregate, "count");
      Ok(ListPage(data, total))
  }

  /** `getList` (index.ts:75-112). */
  method GetList(n: Naming, resource: string, pagination: Option<Pagination>,
                 sorters: Option<seq<Sorter>>, filters: Option<seq<Clause>>,
                 meta: Option<Meta>, reply: Result<Json>)
    returns (request: Request, result: Result<ListPage>)
    ensures request == ListRequest(n, resource, pagination, sorters, filters, meta)
    ensures result == ListResult(request.operation, reply)
  {
    var current := CurrentPage(pagination);
    var pageSize := PageSize(pagination);
    var mode := Mode(pagination);
    var operation := ConnectionName(n, resource);
    var where := GenerateFilter(filters);
    var variables := MetaVariables(meta)
      + map["orderBy" := Typed(SortValue(GenerateSort(n, sorters)), TypeName(n, resource, "OrderByInput")),
            "where" := Typed(Obj(where), TypeName(n, resource, "WhereInput"))]
      + (if mode == "server" then map["skip" := Num((current - 1) * pageSize), "first" := Num(pageSize)]
         else map[]);
    request := Request(Query, operation, Some(variables), ListFields(meta));
    result := ListResult(operation, reply);
  }

  /** The keys `getList` sets itself, over whatever `meta.variables` holds. */
  function ListOwnKeys(p: Option<Pagination>): set<string> {
    if Mode(p) == "server" then {"orderBy", "where", "skip", "first"} else {"orderBy", "where"}
  }

  /** The variables of `getList`: `orderBy` from the first sorter, `where` from the filters,
      `skip = (current-1)*pageSize` and `first = pageSize` in server mode (each part of the
      pagination defaulted as `PaginationDefaults` states), and every other entry of `meta.variables`
      unchanged; the provider's own keys win over same-named entries of `meta.variables`. */
  lemma ListVariablesSpec(n: Naming, resource: string, pagination: Option<Pagination>,
                          sorters: Option<seq<Sorter>>, filters: Option<seq<Clause>>, meta: Option<Meta>)
    ensures var v := ListVariables(n, resource, pagination, sorters, filters, meta);
      && "orderBy" in v && "where" in v
      && v["orderBy"] == Typed(SortValue(GenerateSort(n, sorters)), TypePrefix(n, resource) + "OrderByInput")
      && v["where"] == Typed(Obj(Filter(filters)), TypePrefix(n, resource) + "WhereInput")
      && (Mode(pagination) == "server" ==>
            && "skip" in v && "first" in v
            && v["skip"] == Num((CurrentPage(pagination) - 1) * PageSize(pagination))
            && v["first"] == Num(PageSize(pagination)))
      && (forall k :: k in v <==> k in MetaVariables(meta) || k in ListOwnKeys(pagination))
      && (forall k :: k in MetaVariables(meta) && k !in ListOwnKeys(pagination) ==>
            k in v && v[k] == MetaVariables(meta)[k])
  {
    var passed := MetaVariables(meta);
    var own := map["orderBy" := Typed(SortValue(GenerateSort(n, sorters)), TypeName(n, resource, "OrderByInput")),
                   "where" := Typed(Obj(Filter(filters)), TypeName(n, resource, "WhereInput"))];
    var page := PageVariables(pagination);
    var v := ListVariables(n, resource, pagination, sorters, filters, meta);
    assert v == passed + own + page;
    assert page.Keys + own.Keys == ListOwnKeys(pagination);
  }

  /** Each part of the pagination defaults on its own: page 1, size 10 and "server" mode for
      a missing part, the given value otherwise. */
  lemma PaginationDefaults(pagination: Option<Pagination>)
    ensures (pagination.None? || pagination.value.current.None?) ==> CurrentPage(pagination) == 1
    ensures (pagination.None? || pagination.value.pageSize.None?) ==> PageSize(pagination) == 10
    ensures (pagination.None? || pagination.value.mode.None?) ==> Mode(pagination) == "server"
    ensures pagination.Some? && pagination.value.current.Some? ==>
              CurrentPage(pagination) == pagination.value.current.value
    ensures pagination.Some? && pagination.value.pageSize.Some? ==>
              PageSize(pagination) == pagination.value.pageSize.value
    ensures pagination.Some? && pagination.value.mode.Some? ==> Mode(pagination) == pagination.value.mode.value
  {
  }

  /** Page 2 of size 5 in server mode skips 5 and takes 5; in client
      mode, with no `meta.variables`, neither key is sent. */
  lemma ListPaginationExample(n: Naming, sorters: Option<seq<Sorter>>, filters: Option<seq<Clause>>)
    ensures var v := ListVariables(n, "posts", Some(Pagination(Some(2), Some(5), Some("server"))), sorters, filters, None);
      "skip" in v && v["skip"] == Num(5) && "first" in v && v["first"] == Num(5)
    ensures var v := ListVariables(n, "posts", Some(Pagination(Some(2), Some(5), Some("client"))), sorters, filters, None);
      "skip" !in v && "first" !in v
  {
  }

  /** The reply the backend gives for a connection: every node wrapped in an edge, and the
      total count under `aggregate`. */
  function ConnectionReply(operation: string, nodes: seq<Json>, total: Json): Json {
    Obj(map[operation := Obj(map[
      "edges" := Arr(seq(|nodes|, i requires 0 <= i < |nodes| => Obj(map["node" := nodes[i]]))),
      "aggregate" := Obj(map["count" := total])])])
  }

  /** Reshaping a connection reply gives back its nodes, in order, and its count. */
  lemma ListResultRoundTrip(operation: string, nodes: seq<Json>, total: Json)
    ensures ListResult(operation, Ok(ConnectionReply(operation, nodes, total))) == Ok(ListPage(nodes, total))
  {
    var edges := seq(|nodes|, i requires 0 <= i < |nodes| => Obj(map["node" := nodes[i]]));
    var r := MapProp(edges, "node");
    assert forall i :: 0 <= i < |edges| ==> Prop(edges[i], "node") == Ok(nodes[i]);
    assert r.Ok? && r.value == nodes;
  }

  /** A rejected request is passed on; a reply without the operation fails on reading
      `edges`; a connection without `edges` fails on calling `map`, with JavaScript's
      TypeError for a property read of `undefined`. */
  lemma ListResultErrors(operation: string, e: Error, aggregate: Json)
    ensures ListResult(operation, Err(e)) == Err(e)
    ensures ListResult(operation, Ok(Obj(map[]))) ==
      Err(TypeError("Cannot read properties of undefined (reading 'edges')"))
    ensures ListResult(operation, Ok(Obj(map[operation := Obj(map["aggregate" := aggregate])]))) ==
      Err(TypeError("Cannot read properties of undefined (reading 'map')"))
  {
  }

  // ---------------------------------------------------------------- getMany, getOne

  function GetManyRequest(n: Naming, resource: string, ids: seq<Json>, meta: Option<Meta>): Request {
    Request(Query, n.camelCase(resource),
            Some(map["where" := Typed(Obj(map["id_in" := Arr(ids)]), TypeName(n, resource, "WhereInput"))]),
            MetaFields(meta))
  }

  /** What the reply holds under the operation `getMany` asked for. */
  function GetManyResult(n: Naming, resource: string, reply: Result<Json>): Result<Json> {
    var response :- reply;
    Prop(response, n.camelCase(resource))
  }

  /** `getMany` asks for the records whose id is among `ids`, with the caller's fields, and
      returns whatever the reply holds under the operation it asked for. */
  lemma GetManyAnswered(n: Naming, resource: string, ids: seq<Json>, meta: Option<Meta>, answer: Json)
    ensures var q := GetManyRequest(n, resource, ids, meta);
      && q.kind == Query
      && q.variables == Some(map["where" := Typed(Obj(map["id_in" := Arr(ids)]), TypePrefix(n, resource) + "WhereInput")])
      && q.fields == MetaFields(meta)
      && GetManyResult(n, resource, Ok(Obj(map[q.operation := answer]))) == Ok(answer)
  {
  }

  /** `getOne` is `getMany` of the one id. */
  function GetOneRequest(n: Naming, resource: string, id: Json, meta: Option<Meta>): Request {
    GetManyRequest(n, resource, [id], meta)
  }

  /** `getOne` takes element 0 of what `getMany` returned. */
  function GetOneResult(n: Naming, resource: string, reply: Result<Json>): Result<Json> {
    var data :- GetManyResult(n, resource, reply);
    Prop(data, "0")
  }

  /** `getOne` asks for `id_in: [id]` and yields the first record of the list the backend
      answers with, or `undefined` when the list is empty; a reply without the list fails. */
  lemma GetOneIsFirstOfMany(n: Naming, resource: string, id: Json, meta: Option<Meta>, records: seq<Json>)
    ensures GetOneRequest(n, resource, id, meta).operation == n.camelCase(resource)
    ensures GetOneRequest(n, resource, id, meta).variables ==
      Some(map["where" := Typed(Obj(map["id_in" := Arr([id])]), TypePrefix(n, resource) + "WhereInput")])
    ensures GetManyResult(n, resource, Ok(Obj(map[n.camelCase(resource) := Arr(records)]))) == Ok(Arr(records))
    ensures GetOneResult(n, resource, Ok(Obj(map[n.camelCase(resource) := Arr(records)]))) ==
      Ok(if records == [] then Undefined else records[0])
    ensures GetOneResult(n, resource, Ok(Obj(map[]))).Err?
  {
  }

  // ---------------------------------------------------------------- create, createMany

  function CreateRequest(n: Naming, resource: string, record: Json, meta: Option<Meta>): Request {
    Request(Mutation, CreateName(n, resource),
            Some(map["data" := Typed(record, TypeName(n, resource, "CreateInput!"))]),
            FieldsOr(meta, DefaultFields(n, resource)))
  }

  function CreateResult(n: Naming, resource: string, reply: Result<Json>): Result<Json> {
    Unwrap(reply, CreateName(n, resource), n.singular(resource))
  }

  /** `create("posts", {title: "Hello"})` targets `createPost` with `data` typed
      `PostCreateInput!`, selects `post { id }` by default, and reads `response.createPost.post`. */
  lemma CreatePostExample(n: Naming, record: Json, created: Json)
    requires n.singular("posts") == "post"
    requires n.camelCase("create-post") == "createPost"
    requires n.pascalCase("post") == "Post"
    ensures var q := CreateRequest(n, "posts", record, None);
      && q.kind == Mutation
      && q.operation == "createPost"
      && q.variables == Some(map["data" := Obj(map["value" := record, "type" := Str("PostCreateInput!")])])
      && q.fields == Arr([Obj(map["operation" := Str("post"), "fields" := Arr([Str("id")]), "variables" := Obj(map[])])])
    ensures CreateResult(n, "posts", Ok(Obj(map["createPost" := Obj(map["post" := created])]))) == Ok(created)
  {
    assert "create-" + "post" == "create-post";
    assert "Post" + "CreateInput!" == "PostCreateInput!";
  }

  /** `create` sends one mutation named after the singular resource, with the record as
      `data` typed `<Type>CreateInput!`, and selects the caller's fields or, when there are
      none, the created record's `id`. It reads the record back from under the same names,
      and a rejected request stays rejected. */
  lemma CreateAnswered(n: Naming, resource: string, record: Json, meta: Option<Meta>, created: Json, e: Error)
    ensures var q := CreateRequest(n, resource, record, meta);
      && q.kind == Mutation
      && q.operation == n.camelCase("create-" + n.singular(resource))
      && q.variables == Some(map["data" := Typed(record, TypePrefix(n, resource) + "CreateInput!")])
      && (MetaFields(meta).Undefined? || MetaFields(meta).Null? ==> q.fields == DefaultFields(n, resource))
      && (!MetaFields(meta).Undefined? && !MetaFields(meta).Null? ==> q.fields == MetaFields(meta))
      && CreateResult(n, resource, Ok(Answer(q.operation, n.singular(resource), created))) == Ok(created)
    ensures CreateResult(n, resource, Err(e)) == Err(e)
  {
  }

  /** The mutation name of `createMany`: the one in `meta`, or the default create name. */
  function CreateManyOperation(n: Naming, resource: string, meta: Option<Meta>): string {
    OperationOr(meta, CreateName(n, resource))
  }

  /** One mutation per record, each wrapping its record as `{data: record}`. */
  function CreateManyRequests(n: Naming, resource: string, records: seq<Json>, meta: Option<Meta>): seq<Request> {
    seq(|records|, i requires 0 <= i < |records| =>
      Request(Mutation, CreateManyOperation(n, resource, meta),
              Some(map["input" := Typed(Obj(map["data" := records[i]]), CreateName(n, resource) + "Input")]),
              FieldsOr(meta, DefaultFields(n, resource))))
  }

  /** The created record of every reply, in order, joined as `Promise.all` joins them. */
  function CreateManyResult(n: Naming, resource: string, meta: Option<Meta>, replies: seq<Result<Json>>): Result<seq<Json>> {
    AllOk(seq(|replies|, i requires 0 <= i < |replies| =>
      Unwrap(replies[i], CreateManyOperation(n, resource, meta), n.singular(resource))))
  }

  /** An operation override renames the mutation but not its input type, which is still
      derived from the default create name. */
  lemma CreateManyNames(n: Naming, resource: string, records: seq<Json>, meta: Option<Meta>, i: int)
    requires 0 <= i < |records|
    ensures |CreateManyRequests(n, resource, records, meta)| == |records|
    ensures var q := CreateManyRequests(n, resource, records, meta)[i];
      && q.kind == Mutation
      && q.operation == (if meta.Some? && meta.value.operation.Some? then meta.value.operation.value
                         else CreateName(n, resource))
      && q.variables == Some(map["input" := Typed(Obj(map["data" := records[i]]), CreateName(n, resource) + "Input")])
  {
  }

  /** The replies the backend gives when every mutation succeeds. */
  function CreatedReplies(operation: string, key: string, created: seq<Json>): seq<Result<Json>> {
    seq(|created|, i requires 0 <= i < |created| => Ok(Answer(operation, key, created[i])))
  }

  /** N successful replies give the N created records, in input order. */
  lemma CreateManyInOrder(n: Naming, resource: string, meta: Option<Meta>, created: seq<Json>)
    ensures CreateManyResult(n, resource, meta,
              CreatedReplies(CreateManyOperation(n, resource, meta), n.singular(resource), created)) == Ok(created)
  {
    var op := CreateManyOperation(n, resource, meta);
    var replies := CreatedReplies(op, n.singular(resource), created);
    var outcomes := seq(|replies|, i requires 0 <= i < |replies| => Unwrap(replies[i], op, n.singular(resource)));
    forall i | 0 <= i < |created| ensures outcomes[i] == Ok(created[i]) {
      UnwrapAnswer(op, n.singular(resource), created[i], TypeError(""));
    }
    var r := AllOk(outcomes);
    assert r.Ok? && |r.value| == |created|;
    assert r.value == created;
  }

  /** All or nothing: the batch succeeds only when every mutation does, with one record per
      reply; one rejected request fails the whole batch with that request's error or
      another failure's. */
  lemma CreateManyAllOrNothing(n: Naming, resource: string, meta: Option<Meta>, replies: seq<Result<Json>>, k: int)
    requires 0 <= k < |replies| && replies[k].Err?
    ensures CreateManyResult(n, resource, meta, replies).Err?
    ensures var r := CreateManyResult(n, resource, meta, replies);
      exists i :: 0 <= i < |replies| &&
        Unwrap(replies[i], CreateManyOperation(n, resource, meta), n.singular(resource)) == Err(r.error)
  {
    var outcomes := seq(|replies|, i requires 0 <= i < |replies| =>
      Unwrap(replies[i], CreateManyOperation(n, resource, meta), n.singular(resource)));
    assert outcomes[k] == Err(replies[k].error);
  }

  // ---------------------------------------------------------------- update

  /** The record without its `id` entry. */
  function StripId(record: map<string, Json>): (data: map<string, Json>)
    ensures "id" !in data
    ensures forall k :: k in record && k != "id" ==> k in data && data[k] == record[k]
    ensures forall k :: k in data ==> k in record
  {
    map k | k in record && k != "id" :: record[k]
  }

  function UpdateRequest(n: Naming, resource: string, id: Json, record: map<string, Json>, meta: Option<Meta>): Request {
    Request(Mutation, UpdateName(n, resource),
            Some(map["where" := Typed(Obj(map["id" := id]), TypeName(n, resource, "WhereUniqueInput!")),
                     "data" := Typed(Obj(StripId(record)), TypeName(n, resource, "UpdateInput!"))]),
            Nested(n.singular(resource), FieldsOr(meta, Arr([Str("id")]))))
  }

  function UpdateResult(n: Naming, resource: string, reply: Result<Json>): Result<Json> {
    Unwrap(reply, UpdateName(n, resource), n.singular(resource))
  }

  /** The id goes only into `where`; `data` is the record without its `id` and with every
      other entry unchanged. */
  lemma UpdateIdOnlyInWhere(n: Naming, resource: string, id: Json, record: map<string, Json>, meta: Option<Meta>)
    ensures var q := UpdateRequest(n, resource, id, record, meta);
      && q.variables.Some?
      && q.variables.value.Keys == {"where", "data"}
      && q.variables.value["where"] == Typed(Obj(map["id" := id]), TypePrefix(n, resource) + "WhereUniqueInput!")
      && q.variables.value["data"].Obj?
      && "value" in q.variables.value["data"].props
      && q.variables.value["data"].props["value"].Obj?
      && var data := q.variables.value["data"].props["value"].props;
         && "id" !in data
         && (forall k :: k in data <==> k in record && k != "id")
         && (forall k :: k in data ==> data[k] == record[k])
    ensures var q := UpdateRequest(n, resource, id, record, meta);
      && q.fields == Nested(n.singular(resource), FieldsOr(meta, Arr([Str("id")])))
      && (meta.None? ==> q.fields == DefaultFields(n, resource))
    ensures forall updated: Json ::
      UpdateResult(n, resource, Ok(Answer(UpdateRequest(n, resource, id, record, meta).operation, n.singular(resource), updated))) == Ok(updated)
  {
  }

  // ---------------------------------------------------------------- deleteOne

  /** The mutation name of `deleteOne`: the one in `meta`, or the default delete name. */
  function DeleteOperation(n: Naming, resource: string, meta: Option<Meta>): string {
    OperationOr(meta, DeleteName(n, resource))
  }

  function DeleteRequest(n: Naming, resource: string, id: Json, meta: Option<Meta>): Request {
    Request(Mutation, DeleteOperation(n, resource, meta),
            Some(map["where" := Typed(Obj(map["id" := id]), TypeName(n, resource, "WhereUniqueInput!"))]),
            FieldsOr(meta, DefaultFields(n, resource)))
  }

  function DeleteResult(n: Naming, resource: string, meta: Option<Meta>, reply: Result<Json>): Result<Json> {
    Unwrap(reply, DeleteOperation(n, resource, meta), n.singular(resource))
  }

  /** An operation override, even an empty name, renames the mutation and the field the
      reply is read from, while the `where` variable and its type stay those of the resource. */
  lemma DeleteOverride(n: Naming, resource: string, id: Json, meta: Option<Meta>, deleted: Json)
    ensures DeleteRequest(n, resource, id, meta).operation ==
      (if meta.Some? && meta.value.operation.Some? then meta.value.operation.value else DeleteName(n, resource))
    ensures DeleteRequest(n, resource, id, meta).variables == DeleteRequest(n, resource, id, None).variables
    ensures DeleteRequest(n, resource, id, meta).variables ==
      Some(map["where" := Typed(Obj(map["id" := id]), TypePrefix(n, resource) + "WhereUniqueInput!")])
    ensures DeleteResult(n, resource, meta,
              Ok(Answer(DeleteRequest(n, resource, id, meta).operation, n.singular(resource), deleted))) == Ok(deleted)
  {
  }

  // ---------------------------------------------------------------- getApiUrl, custom

  /** `getApiUrl` (index.ts:265-267) always throws. */
  function ApiUrl(): (r: Result<string>)
    ensures r.Err? && r.error.Thrown?
  {
    Err(Thrown("Not implemented on refine-graphql data provider."))
  }

  /** The client `custom` sends through. */
  datatype Client = DefaultClient | UrlClient(url: string, headers: Option<map<string, string>>)

  /** A non-empty url gets a fresh client; otherwise the shared one is used as it is. */
  function CustomClient(url: Option<string>, headers: Option<map<string, string>>): (c: Client)
    ensures c.UrlClient? <==> url.Some? && url.value != ""
    ensures c.UrlClient? ==> c.url == url.value && c.headers == headers
  {
    match url
    case Some(u) => if u != "" then UrlClient(u, headers) else DefaultClient
    case None => DefaultClient
  }

  const MetaRequired := "GraphQL need to operation, fields and variables values in meta object."
  const OperationRequired := "GraphQL operation name required."

  /** The request of `custom`: a query for method "get", a mutation for every other method,
      with the operation, fields and variables of `meta` passed through as they are. */
  function CustomRequest(httpMethod: string, meta: Option<Meta>): (r: Result<Request>)
    ensures meta.None? ==> r == Err(Thrown(MetaRequired))
    ensures meta.Some? && (meta.value.operation.None? || meta.value.operation == Some("")) ==>
              r == Err(Thrown(OperationRequired))
    ensures r.Ok? <==> meta.Some? && meta.value.operation.Some? && meta.value.operation.value != ""
    ensures r.Ok? ==>
      && meta.Some? && meta.value.operation == Some(r.value.operation)
      && (r.value.kind == Query <==> httpMethod == "get")
      && r.value.variables == meta.value.variables
      && r.value.fields == meta.value.fields
  {
    match meta
    case None => Err(Thrown(MetaRequired))
    case Some(m) =>
      match m.operation
      case None => Err(Thrown(OperationRequired))
      case Some(op) =>
        if op == "" then Err(Thrown(OperationRequired))
        else Ok(Request(if httpMethod == "get" then Query else Mutation, op, m.variables, m.fields))
  }

  /** `custom` end to end: the configuration errors are raised before any reply is looked
      at; otherwise the result is `response[meta.operation]`. */
  function Custom(httpMethod: string, meta: Option<Meta>, reply: Result<Json>): (r: Result<Json>)
    ensures CustomRequest(httpMethod, meta).Err? ==> r == Err(CustomRequest(httpMethod, meta).error)
    ensures CustomRequest(httpMethod, meta).Ok? && reply.Err? ==> r == reply
    ensures CustomRequest(httpMethod, meta).Ok? && reply.Ok? ==>
              r == Prop(reply.value, meta.value.operation.value)
  {
    var request :- CustomRequest(httpMethod, meta);
    var response :- reply;
    Prop(response, request.operation)
  }

  /** An empty operation name in `meta` is kept by `deleteOne` and `createMany`, whose
      `??` only replaces a missing name, but refused by `custom`, whose test is truthiness. */
  lemma EmptyOperationName(n: Naming, resource: string, id: Json, fields: Json, variables: Option<map<string, Json>>, httpMethod: string)
    ensures var meta := Some(Meta(Some(""), fields, variables));
      && DeleteRequest(n, resource, id, meta).operation == ""
      && CreateManyOperation(n, resource, meta) == ""
      && CustomRequest(httpMethod, meta) == Err(Thrown(OperationRequired))
  {
  }
}
