# refine-hygraph data provider, modelled in Dafny

The Hygraph data provider adapts refine's generic CRUD data-provider contract (`getList`,
`getMany`, `getOne`, `create`, `createMany`, `update`, `deleteOne`, `custom`, `getApiUrl`) to a
GraphQL backend. For each call it derives GraphQL operation and input-type names from the
resource name. It translates refine's filters and sorters into `where` and `orderBy`
arguments, hands `{operation, variables, fields}` to a query builder, sends the query and
reshapes the reply into refine's `{data}` / `{data, total}` envelope.

This project models that translation layer, which is all of `index.ts`:

- `js.dfy`, module `Js`: the JavaScript values that flow through the provider (`Json`, with
  `undefined` and `null`). It also holds the property reads the provider performs on replies,
  with JavaScript's TypeError on `undefined`/`null`, the `map` over edges, and `Promise.all`
  over settled outcomes.
- `names.dfy`, module `Names`: the naming libraries `camelCase`, `pascalCase`, `capitalCase`
  (change-case) and `singular` (pluralize) enter as a `Naming` value of four arbitrary
  string functions. Every property is therefore proved for all possible naming functions.
  The module also builds the derived names (`createPost`, `PostWhereInput`, ...).
- `translate.dfy`, module `Translate`: `generateFilter` is an imperative method, a loop that
  assigns into a dictionary with an inner loop that pushes group entries. It is proved equal
  to a pure fold (`Fold`/`Filter`), and the filter properties are proved about that fold.
  `genereteSort` is a function.
- `provider.dfy`, module `Provider`: each operation is a pure request builder plus a pure
  result function over the reply. The builders are `ListRequest`, `GetManyRequest`,
  `GetOneRequest`, `CreateRequest`, `CreateManyRequests`, `UpdateRequest`, `DeleteRequest`
  and `CustomRequest`. The result functions are `ListResult`, `GetManyResult`,
  `GetOneResult`, `CreateResult`, `CreateManyResult`, `UpdateResult`, `DeleteResult` and
  `Custom`. The lemmas in the table below state what each pair does. `getList` is a method,
  because it calls the imperative `generateFilter`. The network is left out: the reply the GraphQL client would produce is an
  input of type `Result<Json>`, where `Err` stands for a rejected request and is passed on
  unchanged.

Refine's types decide how filter clauses are modelled. A field clause's operator is never
`or`/`and`, and a group's operator is always one of them (`FieldOperator`, `LogicOperator`).
So the source's test `operator !== "or" && operator !== "and" && "field" in filter` holds
exactly for field clauses. A group nested inside a group has no `field`, so JavaScript writes
its key as `undefined_or` / `undefined_and`, with the raw sub-clause objects as the value,
including the optional `key` of a deeper group. The model does the same: a group carries its
optional `key`, and `ClauseJson` renders it (`MemberKey`, `MemberValue`, `NestedGroupEntry`).

Three behaviours of the code worth noting:

- `createMany`: the input type is `<default create name>Input` even when `meta.operation` renames the mutation (index.ts:165-176).
- `getList`: every mode other than `"server"` omits the provider's own `skip`/`first`, not just `"client"`. Entries named `skip`/`first` in `meta.variables` still pass through in those modes (index.ts:87-95).
- `deleteOne` and `createMany` keep an empty `meta.operation`, because `??` only replaces a missing value. `custom` refuses it (index.ts:167, 239, 277).

## Model

| member | source | states |
|---|---|---|
| `Translate.GenerateFilter` | index.ts:20-53 | The loop over clauses, with its inner loop over group members, yields exactly the fold of the clauses. Absent filters or an empty list give the empty object. |
| `Translate.FoldHasKeys` | index.ts:24-49 | Every clause's key (bare field for `eq`, `field_op` otherwise, `_or` for a group) is present in the filter object. |
| `Translate.FoldKeysFromClauses` | index.ts:21-52 | Every key of the filter object was written by some clause; nothing else is added. |
| `Translate.FoldLastWins` | index.ts:24-49 | Each key holds the value of the last clause writing it. A later clause with the same key, including a second group writing `_or`, overwrites the earlier one. |
| `Translate.FieldClauseEntry` | index.ts:25-36 | A field clause with `eq` writes its value under the bare field name. Any other operator writes under `field_op`. Both hold unless a later clause overwrites the key. |
| `Translate.OrListAt` | index.ts:40-45 | The pushed `_or` list has one entry per group member, in member order, each the member's single-key object. |
| `Translate.GroupEntry` | index.ts:37-48 | A group, `or` or `and`, writes `_or`: a list as long as the group whose m-th element is `{field_op: value}` of the m-th member. This includes `field_eq` for `eq`. |
| `Translate.NestedGroupEntry` | index.ts:39-45 | A group nested in a group writes `undefined_or`/`undefined_and`. Its value lists the sub-clauses as the caller wrote them and nothing more: a field clause's `field`, `operator` and `value`; a deeper group's `operator`, its raw sub-clauses as `value`, and its `key` exactly when it has one. |
| `Translate.EqOnlyFilter` | index.ts:32-33 | With only `eq` clauses, the keys are exactly the field names, with no suffix. Each field holds its last clause's value. |
| `Translate.GenerateSort` | index.ts:13-18 | The result is `null` exactly when sorters are absent or empty. Otherwise it is `pascalCase(field) + "_" + capitalCase(order)` of the first sorter. |
| `Translate.SortUsesFirstOnly` | index.ts:14-17 | Two sorter lists that agree on their first entry give the same token. |
| `Translate.SortExample` | index.ts:17 | Sorting by `createdAt` descending gives `CreatedAt_Desc`, whatever sorters follow. |
| `Js.MapProp` | index.ts:109 | `edges.map(e => e.node)` gives one node per edge, in order. It fails exactly when some edge is `undefined`/`null`, with the error of the first such edge. |
| `Js.Prop` | index.ts:109-110 | Reading a property fails exactly on `undefined`/`null`, with a TypeError. On an object it gives the property, or `undefined` when it is missing. |
| `Js.AllOk` | index.ts:169-197 | `Promise.all` yields every value, in input order, exactly when all succeed. Otherwise it yields the error of one that failed. |
| `Provider.GetList` | index.ts:75-112 | The method, which calls the filter loop, builds the `getList` request and reshapes the reply as the specification functions do. |
| `Provider.ListVariablesSpec` | index.ts:76-95 | `orderBy` and `where` carry their values and types. Server mode adds `skip = (current-1)*pageSize` and `first = pageSize`. Other `meta.variables` entries pass through, and the provider's own keys override same-named ones. |
| `Provider.PaginationDefaults` | index.ts:76-80 | Each pagination part defaults on its own: `current` to 1, `pageSize` to 10, `mode` to `"server"`. A given part is used as it is. |
| `Provider.ListPaginationExample` | index.ts:76-95 | Page 2 of size 5 in server mode gives `skip = 5`, `first = 5`. In client mode, with no `meta.variables`, neither key is present. |
| `Provider.ListResultRoundTrip` | index.ts:108-111 | Reshaping a connection reply gives back its nodes in order as `data` and its `aggregate.count` as `total`. |
| `Provider.ListResultErrors` | index.ts:106-111 | A rejected request is passed on. A reply without the connection fails reading `edges`. A connection without `edges` fails with the TypeError of reading `map` of `undefined`. |
| `Provider.GetManyAnswered` | index.ts:114-133 | `getMany` queries `where: {id_in: ids}` typed `<Type>WhereInput` with the caller's fields. It returns what the reply holds under that operation. |
| `Provider.GetOneIsFirstOfMany` | index.ts:232-234 | `getOne` is `getMany` with `[id]`. It yields the first record, `undefined` for an empty list, and fails when the list is missing. |
| `Provider.UnwrapAnswer` | index.ts:158-160 | Reading `response[operation][singular]` from a reply answered under those names gives the record back. A rejected request stays rejected. |
| `Provider.CreatePostExample` | index.ts:135-161 | `create("posts", …)` targets `createPost` with `data` typed `PostCreateInput!` and selects `post { id }` by default. It reads `response.createPost.post`. |
| `Provider.CreateAnswered` | index.ts:135-161 | For any resource, `create` sends `create<Singular>` with the record as `data` typed `<Type>CreateInput!`. It selects the caller's fields, or the created record's `id` when there are none or they are `null`. It reads the record back from `response[operation][singular]`, and a rejected request stays rejected. |
| `Provider.CreateManyNames` | index.ts:163-186 | One request per record, each wrapping it as `{data: record}`. `meta.operation` renames the mutation, but the input type stays `<createName>Input`. |
| `Provider.CreateManyInOrder` | index.ts:169-197 | N successful replies give the N created records in input order. |
| `Provider.CreateManyAllOrNothing` | index.ts:169-194 | One rejected request fails the whole batch, with the error of a failing element. |
| `Provider.StripId` | index.ts:210 | The `data` payload has no `id` key and keeps every other key/value unchanged. |
| `Provider.UpdateIdOnlyInWhere` | index.ts:200-230 | The variables are exactly `where: {id}` and `data` without `id`. The selection is always nested under the singular name, with the caller's fields or `["id"]`. The reply is read back under the same names. |
| `Provider.DeleteOverride` | index.ts:236-263 | `meta.operation`, even an empty name, replaces the mutation name and the field the reply is read from. `where` and its type stay the resource's. |
| `Provider.ApiUrl` | index.ts:265-267 | `getApiUrl` always throws. |
| `Provider.CustomClient` | index.ts:270-274 | A non-empty url gets a fresh client with the given headers. Otherwise the shared client is used. |
| `Provider.CustomRequest` | index.ts:276-316 | Missing `meta` gives one error, and a missing or empty `meta.operation` another. Otherwise it builds a query exactly when the method is `"get"` and a mutation otherwise, passing `meta`'s operation, fields and variables through. |
| `Provider.Custom` | index.ts:269-317 | The configuration errors come before any reply is used. Otherwise a rejected request propagates and the result is `response[meta.operation]`. |
| `Provider.EmptyOperationName` | index.ts:276-277 | An empty `meta.operation` is kept by `deleteOne` and `createMany`, since `??` only replaces a missing name, but refused by `custom`, which tests truthiness. |

## Left out

- Network I/O: `GraphQLClient.request` and the construction of a client in `custom`. The reply is an input, and the client is named by a `Client` value.
- `gql-query-builder`: the query text and the variables object it produces are not modelled, only the `{operation, variables, fields}` description handed to it.
- The internals of change-case and pluralize: they are arbitrary functions in `Naming`.
- The `debug` wrapper and `console.log` on every result: logging only.
- Concurrency in `createMany`: the N requests are modelled as settled outcomes joined in order.
- Js.AllOk: when several requests fail, JavaScript rejects with whichever failure settles first. The model picks the lowest index, and its contract promises only "the error of a failing element".
- Json: numbers are integers (JavaScript's floating point is not modelled). Property order of objects is not kept, since it affects only the generated query text. Properties inherited from prototypes (`toString`, ...) are not modelled. Strings are sequences of Unicode characters, so `length` and index reads count characters, not UTF-16 code units.
- Provider.Meta: `meta.variables` is a string-keyed object as refine types it. Spreading a non-object is not modelled.
